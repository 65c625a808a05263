# HackAtom logic, modelled in Dafny

HackAtom is a Next.js/React site about nuclear isotopes: a single-run
isotope quiz, a multi-level quiz with experience points and badges, an
atom diagram, a keyword chatbot, two search pages and two search bars, a
resource library, a drag-and-drop economics matching game, in-app
notifications with a return-visit reminder, a news panel, a manufacturing
cost model, an isotope cost analyzer and a production dashboard. Almost all
of it is presentation. This project models the sequential logic behind the
markup, one Dafny module per source file, and proves what that logic
guarantees.

- `Common` holds the string and list operations the modules share:
  `Option` (for `undefined`), lower-casing of the ASCII letters A-Z (the
  part of `toLowerCase` the page texts use), the `includes` substring test,
  `split`, `trim`, decimal printing and parsing, `filter`, `slice(0, n)` and
  keyed table lookup. Strings are sequences of characters, not of UTF-16
  code units.
- React state that the source updates in place becomes a `class` whose
  fields are that state, with one `method` per handler (`QuizHook`,
  `QuizPage`, `ChatSession`, `SearchResultsPage`, `SearchBarWidget`,
  `MatchingBoard`, `NotificationCenter`, `NewsFeed`). The loops of the source
  (electron-shell filling, nucleus particles, answer counting, the search
  loop) are `while` loops with invariants, proved against specification
  functions.
- Pure code (tables, lookups, colour and icon mappings, the grade bands, the
  keyword router, the financial arithmetic) becomes datatypes, functions and
  lemmas. The constant tables are checked entry by entry.
- Clock readings (`Date.now`, `new Date()`), the remembered `localStorage`
  values and the notification permission are parameters or fields. Timer
  callbacks are explicit operations. The Notifications API Standard
  (WHATWG) has the `Notification` constructor throw a `TypeError` when
  `actions` is non-empty, and both page notifications pass `actions`.
  Whether the browser does so is a field of `NotificationCenter`, and the
  handlers state both outcomes.
- JavaScript numbers are modelled as exact integers and reals: whole-dollar
  figures as `int`, percentages as `real` with explicit NaN and Infinity
  cases where a division by zero can occur, `Math.floor` with a positive
  divisor as Dafny's `/`, and `toFixed(1)` as round-half-up in tenths.
  The rounding of double-precision arithmetic is not modelled.

`selectAnswer` has no already-answered check: two correct selections on
one question add 2 to the score (`UseQuiz.RepeatedCorrectAnswer`). The
question card's `!showResult` guard prevents this in the page
(`UseQuiz.QuizHook.ClickOption`).

## Model

| member | source | states |
|---|---|---|
| QuizTypes.ParseCategory | hackatom/nuclear-life/types/quiz.ts:13 | a string is accepted exactly when it is the spelling of one of the four isotope categories, and the category returned is the one spelled |
| QuizTypes.CategoryRoundTrip | hackatom/nuclear-life/types/quiz.ts:13 | parsing the spelling of a category gives that category back |
| QuizTypes.ParseKind | hackatom/nuclear-life/types/quiz.ts:19 | a string is accepted exactly when it spells one of the three question types |
| QuizTypes.KindRoundTrip | hackatom/nuclear-life/types/quiz.ts:19 | parsing the spelling of a question type gives it back |
| QuizTypes.ParseDifficulty | hackatom/nuclear-life/types/quiz.ts:25 | a string is accepted exactly when it is easy, medium or hard |
| QuizTypes.DifficultyRoundTrip | hackatom/nuclear-life/types/quiz.ts:25 | parsing the spelling of a difficulty gives it back |
| IsotopeBank.IsotopesWellFormed | hackatom/nuclear-life/lib/isotopes.ts:3-124 | there are eight cards, and on every card the mass number is protons plus neutrons and protons, atomic number and electrons agree |
| IsotopeBank.QuestionsWellFormed | hackatom/nuclear-life/lib/isotopes.ts:126-247 | there are twelve questions, each with four options and an answer key that indexes one of them |
| IsotopeBank.QuestionIds | hackatom/nuclear-life/lib/isotopes.ts:126-247 | question `i` has id `i + 1`, so the ids 1..12 are distinct and ascending |
| IsotopeBank.QuestionIsotopesInBank | hackatom/nuclear-life/lib/isotopes.ts:135-245 | the card each question shows is one of the eight cards of the bank |
| IsotopeBank.NeutronQuestionAgreesWithCard | hackatom/nuclear-life/lib/isotopes.ts:187-196 | question 7's keyed "78" is the decimal spelling of Iodine-131's neutron count, which is its mass number minus its atomic number |
| IsotopeBank.MassQuestionAgreesWithCard | hackatom/nuclear-life/lib/isotopes.ts:237-246 | question 12's keyed "14" is Carbon-14's mass number, 6 protons plus 8 neutrons |
| IsotopeBank.KeyedOptionsAgreeWithCards | hackatom/nuclear-life/lib/isotopes.ts:126-236 | the keyed options of questions 1, 2, 3, 5, 8 and 10 are the symbol, name, half-life, decay type or name on the question's own card |
| IsotopeBank.HighestAtomicNumber | hackatom/nuclear-life/lib/isotopes.ts:207-216 | question 9's keyed Plutonium-239 has the largest atomic number of all cards |
| QuestionCard.ViewOption | hackatom/nuclear-life/components/quiz/QuestionCard.tsx:66-69 | while the result is hidden an option is neither wrong nor highlighted; once it shows, an option is highlighted exactly when it is the key and wrong exactly when it is selected and not the key; never both |
| QuestionCard.Views | hackatom/nuclear-life/components/quiz/QuestionCard.tsx:65-69 | one button per option |
| QuestionCard.NothingMarkedBeforeResult | hackatom/nuclear-life/components/quiz/QuestionCard.tsx:68-69 | while the result is hidden no option is wrong or highlighted |
| QuestionCard.ExactlyKeyHighlighted | hackatom/nuclear-life/components/quiz/QuestionCard.tsx:67-69 | once the result shows, the keyed option is highlighted and no other is |
| QuestionCard.WrongIsSelectedAndUnique | hackatom/nuclear-life/components/quiz/QuestionCard.tsx:66-69 | a wrong option is the selected one and is not highlighted, and at most one option is wrong |
| QuestionCard.OnClick | hackatom/nuclear-life/components/quiz/QuestionCard.tsx:74-75 | a click is forwarded, with its own index, exactly when the result is hidden |
| QuestionCard.ShowsExplanation | hackatom/nuclear-life/components/quiz/QuestionCard.tsx:100 | the explanation renders exactly when it is requested and the result shows, which is exactly when it is requested and clicks on the options are no longer forwarded |
| QuestionCard.DifficultyColor | hackatom/nuclear-life/components/quiz/QuestionCard.tsx:23-30 | a string that is not one of the three difficulties gets the grey badge, and each difficulty gets a badge other than grey |
| QuestionCard.DifficultyColorsDistinct | hackatom/nuclear-life/components/quiz/QuestionCard.tsx:23-30 | any string that is not a difficulty gets the grey badge, and the three difficulties get three badges that differ from each other and from grey |
| QuestionCard.DifficultyLabel | hackatom/nuclear-life/components/quiz/QuestionCard.tsx:39 | the label is the difficulty with its first letter upper-cased: Easy, Medium, Hard |
| QuizResults.Percentage | hackatom/nuclear-life/components/quiz/QuizResults.tsx:18 | with at least one question the percentage is a non-negative finite number p with p·total = 100·score; with none it is Infinity exactly for a positive score and NaN exactly for a zero score |
| QuizResults.GetGrade | hackatom/nuclear-life/components/quiz/QuizResults.tsx:20-26 | the grade's position above D is the number of the bands 60, 70, 80 and 90 that the percentage reaches, so NaN gets D and Infinity A+ |
| QuizResults.GetPerformanceMessage | hackatom/nuclear-life/components/quiz/QuizResults.tsx:30-36 | for every percentage, NaN and Infinity included, the message shown is the message of the grade shown: both chains test the same bounds in the same order |
| QuizResults.MessagesDistinct | hackatom/nuclear-life/components/quiz/QuizResults.tsx:30-36 | different grades get different messages, so grades and messages correspond one to one |
| QuizResults.GradeMonotone | hackatom/nuclear-life/components/quiz/QuizResults.tsx:20-26 | a higher percentage never gets a lower grade |
| QuizResults.PercentageAtLeast | hackatom/nuclear-life/components/quiz/QuizResults.tsx:18 | with at least one question, the percentage reaches a band exactly when score·100 reaches band·total |
| QuizResults.GradeByCountsAgrees | hackatom/nuclear-life/components/quiz/QuizResults.tsx:18-26 | the whole-number grade (score·100 against band·total) equals the grade of the percentage, for every score and total including a total of 0 |
| QuizResults.FullAndZeroScores | hackatom/nuclear-life/components/quiz/QuizResults.tsx:18-25 | all answers right gives A+, none right gives D |
| QuizResults.TwelveQuestionsAvoidBoundaries | hackatom/nuclear-life/components/quiz/QuizResults.tsx:18 | out of twelve questions no score lands exactly on 90, 80, 70 or 60 percent |
| UseQuiz.CorrectCount | hackatom/nuclear-life/hooks/useQuiz.ts:37-38 | the number of correctly answered slots never exceeds the number of questions |
| UseQuiz.CorrectCountEmpty | hackatom/nuclear-life/hooks/useQuiz.ts:11-72 | a run whose slots are all empty has counted nothing |
| UseQuiz.CorrectCountFill | hackatom/nuclear-life/hooks/useQuiz.ts:34-38 | filling one empty slot raises the count by one exactly when the answer is that question's key, and leaves it otherwise |
| UseQuiz.RepeatedCorrectAnswer | hackatom/nuclear-life/hooks/useQuiz.ts:33-45 | selecting the key twice on the first question scores 2 while only one slot is correct: the hook has no already-answered check |
| UseQuiz.QuizHook.constructor | hackatom/nuclear-life/hooks/useQuiz.ts:8-18 | the hook starts on the twelve-question bank with a fresh state, not started, result hidden, and the score equal to the count of correct slots |
| UseQuiz.QuizHook.StartQuiz | hackatom/nuclear-life/hooks/useQuiz.ts:20-31 | index 0, score 0, every slot empty, not complete, explanation and result hidden, started |
| UseQuiz.QuizHook.SelectAnswer | hackatom/nuclear-life/hooks/useQuiz.ts:33-48 | only the current slot is written; the score rises by one exactly when the answer is the key; index, completion and clock are unchanged; explanation and result show; the score stays equal to the count of correct slots when the current slot was empty |
| UseQuiz.QuizHook.NextQuestion | hackatom/nuclear-life/hooks/useQuiz.ts:50-66 | past the last question it only sets completion and keeps the index; otherwise it advances the index and hides explanation and result; once complete it changes nothing; the index stays in range |
| UseQuiz.QuizHook.RestartQuiz | hackatom/nuclear-life/hooks/useQuiz.ts:68-79 | the same fresh quiz state as a start, but not started |
| UseQuiz.QuizHook.ClickOption | hackatom/nuclear-life/hooks/useQuiz.ts:33-48 | a click through the card's guard: ignored while the result shows, otherwise it records the option; under the guard the score always equals the number of correct slots |
| AtomicDiagram.CapacityTotal | hackatom/nuclear-life/components/quiz/AtomicDiagram.tsx:36 | the seven shell capacities total 118, and no prefix of them exceeds that |
| AtomicDiagram.GetElectronShells | hackatom/nuclear-life/components/quiz/AtomicDiagram.tsx:33-48 | at most seven shells; shell `i` has radius 20 + 15·i and between 1 and its capacity electrons; every shell but the last is full; the electrons total min(atomicNumber, 118); an atomic number of 0 or less gives no shells |
| AtomicDiagram.GenerateNucleusParticles | hackatom/nuclear-life/components/quiz/AtomicDiagram.tsx:53-83 | exactly atomicNumber protons labelled proton-0, proton-1, … followed by `neutrons` neutrons labelled neutron-0, …, and all labels pairwise distinct |
| AtomicDiagram.PrefixedIdsInjective | hackatom/nuclear-life/components/quiz/AtomicDiagram.tsx:66-78 | two labels with the same prefix are equal only when their numbers are |
| AtomicDiagram.ParticleIdsDistinct | hackatom/nuclear-life/components/quiz/AtomicDiagram.tsx:66-78 | protons numbered 0..z-1 followed by neutrons numbered 0..n-1 carry pairwise distinct labels |
| LevelQuiz.LevelsShape | hackatom/nuclear-life/app/quiz/page.tsx:56-137 | the level table has keys 1..4, as many as `Object.keys(levels).length`; level `l` has two questions with ids 2l−1 and 2l, each with an answer key indexing an option |
| LevelQuiz.CountCorrect | hackatom/nuclear-life/app/quiz/page.tsx:150-155 | the count of questions whose recorded answer is their key is at most the number of questions, and equals it exactly when every question is answered with its key |
| LevelQuiz.PassThreshold | hackatom/nuclear-life/app/quiz/page.tsx:159 | the pass mark is the least whole number t with 10·t ≥ 7·n, i.e. ceil(0.7·n) |
| LevelQuiz.TwoQuestionLevelsNeedBoth | hackatom/nuclear-life/app/quiz/page.tsx:159-160 | on every level the mark is 2, so a level is passed exactly when both its answers are right |
| LevelQuiz.GetBadge | hackatom/nuclear-life/app/quiz/page.tsx:189-194 | with at least one question: "Perfect Score" exactly when 100·score ≥ 90·total, "Level Passed" exactly when 70·total ≤ 100·score < 90·total, "Try Again" exactly below 70%; with no questions the Infinity or NaN percentage gives "Perfect Score" for a positive score and "Try Again" otherwise |
| LevelQuiz.BadgeTryAgainIffFailed | hackatom/nuclear-life/app/quiz/page.tsx:189-199 | the badge is "Try Again" exactly when the score is below the pass mark |
| LevelQuiz.QuizPage.constructor | hackatom/nuclear-life/app/quiz/page.tsx:15-20 | first question, no answers, results hidden, score 0, level 1, progress level 1 with no XP and no completed levels; the stored progress entry is the one given |
| LevelQuiz.QuizPage.LoadProgress | hackatom/nuclear-life/app/quiz/page.tsx:24-29 | the stored progress entry, when present, replaces the progress; otherwise it is kept |
| LevelQuiz.QuizPage.HandleAnswerSelect | hackatom/nuclear-life/app/quiz/page.tsx:142-147 | the answer for that question id is set, overwriting an earlier one, and every other key keeps its answer or its absence |
| LevelQuiz.QuizPage.HandleSubmit | hackatom/nuclear-life/app/quiz/page.tsx:149-173 | the score is the count of correct answers; on a pass the level becomes max(current+1, old level), XP rises by the level's reward, the current level is appended to the completed list (even when already there) and the new progress is stored; on a fail the progress and the stored entry are unchanged; the level never decreases; results show |
| LevelQuiz.QuizPage.ResetQuiz | hackatom/nuclear-life/app/quiz/page.tsx:175-180 | first question, no answers, results hidden, score 0; level and progress untouched (not in its modifies) |
| LevelQuiz.QuizPage.NextLevel | hackatom/nuclear-life/app/quiz/page.tsx:182-187 | below level 4 it moves to the next level and resets the quiz; at level 4 nothing changes; the level stays in 1..4 |
| LevelQuiz.QuizPage.ClickPrevious | hackatom/nuclear-life/app/quiz/page.tsx:409-416 | one question back, never below the first |
| LevelQuiz.QuizPage.ClickNext | hackatom/nuclear-life/app/quiz/page.tsx:418-435 | one question on, only before the last question and only once the current question has an answer |
| LevelQuiz.QuizPage.ClickSubmit | hackatom/nuclear-life/app/quiz/page.tsx:196-426 | the button exists only while the results are hidden; after the click they show exactly when the click is on the last question with at least as many answers recorded as questions; then the score is the count of correct answers, and on a pass the progress and the stored entry are those of HandleSubmit while on a fail both are unchanged; otherwise score, progress and stored entry are unchanged |
| LevelQuiz.QuizPage.ClickOption | hackatom/nuclear-life/app/quiz/page.tsx:381-384 | the clicked option is recorded for the current question's id |
| LevelQuiz.ProgressSurvivesReload | hackatom/nuclear-life/app/quiz/page.tsx:24-169 | answering both first-level questions with their keys and submitting stores progress level 2, the level's XP and completed list [1], and a later visit loads exactly that progress |
| Chatbot.FirstMention | hackatom/nuclear-life/app/chatbot/page.tsx:112-113 | the index found is the first entry from `from` on whose key or lower-cased name the query contains; none is found exactly when no such entry exists |
| Chatbot.MentionInContext | hackatom/nuclear-life/app/chatbot/page.tsx:113 | the mention test (key, or lower-cased name, contained in the query): a query that mentions an entry still mentions it with any text put before or after it |
| Chatbot.GenerateResponse | hackatom/nuclear-life/app/chatbot/page.tsx:108-258 | on the lower-cased input: the first mentioned isotope wins; failing that the manufacturing, economics, safety and applications replies are given exactly when their words occur and no earlier group's do; the fallback otherwise |
| Chatbot.IsotopeReplyIsFirstMention | hackatom/nuclear-life/app/chatbot/page.tsx:112-113 | an isotope reply is about an entry of the table that the query mentions, and no entry before it is mentioned |
| Chatbot.KeysDistinct | hackatom/nuclear-life/app/chatbot/page.tsx:36-82 | the five entries of the knowledge base are distinct |
| Chatbot.ResponseIgnoresCase | hackatom/nuclear-life/app/chatbot/page.tsx:109 | the reply depends on the input only through its lower-case form |
| Chatbot.NoHyphenNoIsotope | hackatom/nuclear-life/app/chatbot/page.tsx:37-113 | every key and name holds a hyphen, so a query without one mentions no isotope |
| Chatbot.HyphenedNotMentioned | hackatom/nuclear-life/app/chatbot/page.tsx:113 | an entry whose key and name both hold a hyphen is not mentioned by a query without one |
| Chatbot.BecauseGetsApplications | hackatom/nuclear-life/app/chatbot/page.tsx:218 | matching is by substring: "because" contains "use" and gets the applications reply |
| Chatbot.BecauseKeywords | hackatom/nuclear-life/app/chatbot/page.tsx:128-218 | "because" contains none of the manufacturing, economics or safety words and one of the application words |
| Chatbot.SampleQuestionGetsIsotopeReply | hackatom/nuclear-life/app/chatbot/page.tsx:112-255 | the sample question the fallback suggests, about the cost of a Tc-99m facility, gets the Technetium-99m reply, since isotopes are tried before cost and facility |
| Chatbot.ChatSession.constructor | hackatom/nuclear-life/app/chatbot/page.tsx:14-17 | no messages, empty input, not loading, not mounted, no reply pending |
| Chatbot.ChatSession.Mount | hackatom/nuclear-life/app/chatbot/page.tsx:20-29 | the list becomes the single welcome message with id 1 |
| Chatbot.ChatSession.Type | hackatom/nuclear-life/app/chatbot/page.tsx:368-371 | the input takes the typed text unless the page is loading |
| Chatbot.ChatSession.PickQuickQuestion | hackatom/nuclear-life/app/chatbot/page.tsx:288-352 | while at most one message shows, a quick question fills the input; otherwise nothing changes |
| Chatbot.ChatSession.Submit | hackatom/nuclear-life/app/chatbot/page.tsx:260-273 | blank input or loading changes nothing; otherwise one user message with the text and the given time as id is appended, the input is cleared, loading is set and the text awaits its reply |
| Chatbot.ChatSession.ReplyTimerFires | hackatom/nuclear-life/app/chatbot/page.tsx:276-285 | one bot message, the reply to the submitted text with id time + 1, is appended, and loading ends |
| SearchPage.AnyApplicationIncludesIff | hackatom/nuclear-life/app/search/page.tsx:205 | the recursive application test holds exactly when some lower-cased application contains the query, as `some` does |
| SearchPage.QueryOf | hackatom/nuclear-life/app/search/page.tsx:11 | the query is the `q` parameter when present and the empty string when missing |
| SearchPage.DatabaseIdsDistinct | hackatom/nuclear-life/app/search/page.tsx:33-189 | the five database keys are pairwise distinct |
| SearchPage.FilterKeepsIdsDistinct | hackatom/nuclear-life/app/search/page.tsx:199-209 | keeping some records of a list with distinct ids leaves distinct ids |
| SearchPage.SearchSpecCharacterised | hackatom/nuclear-life/app/search/page.tsx:199-209 | a record is a result exactly when it is in the database and matches the lower-cased query in key, title, description, category or an application; the results keep database order and no record appears twice |
| SearchPage.MatchesPrefix | hackatom/nuclear-life/app/search/page.tsx:201-205 | the record test (key, title, description, category or an application containing the query): a record matching a query matches every prefix of it |
| SearchPage.ExtendingQueryNarrows | hackatom/nuclear-life/app/search/page.tsx:199-209 | every record found for a query extended by further characters is also found for the query itself |
| SearchPage.SearchIgnoresQueryCase | hackatom/nuclear-life/app/search/page.tsx:196 | queries that differ only in letter case find the same records |
| SearchPage.RadiographyFindsCobaltAndCesium | hackatom/nuclear-life/app/search/page.tsx:65-205 | "Radiography" finds both Cobalt-60 and Cesium-137 through their application lists |
| SearchPage.KeysAreLowerCase | hackatom/nuclear-life/app/search/page.tsx:33-201 | every key is already lower case, so the key test, which does not lower-case the key, is case-blind too |
| SearchPage.GetIcon | hackatom/nuclear-life/app/search/page.tsx:217-227 | anything but an isotope gets the search icon; an isotope never does, and an isotope outside the three known categories gets the atom icon |
| SearchPage.GetCategoryColor | hackatom/nuclear-life/app/search/page.tsx:229-236 | every category other than the three known ones gets the grey badge |
| SearchPage.CategoryColorsDistinct | hackatom/nuclear-life/app/search/page.tsx:229-236 | the three known categories get three different badges, none of them grey |
| SearchPage.CobaltFallsBackToDefaults | hackatom/nuclear-life/app/search/page.tsx:65-236 | the combined category "Medical/Industrial" of Cobalt-60 gets the atom icon and the grey badge |
| SearchPage.CountLabel | hackatom/nuclear-life/app/search/page.tsx:248 | "Searching..." while loading; otherwise "Found ", the count in decimal, and " result", ending in "s" exactly when the count is not 1 |
| SearchPage.SearchResultsPage.constructor | hackatom/nuclear-life/app/search/page.tsx:12-14 | the page starts on the database with no results, loading, nothing selected |
| SearchPage.SearchResultsPage.QueryEffect | hackatom/nuclear-life/app/search/page.tsx:191-215 | an empty query keeps the previous results; any other query replaces them with exactly the matching records, in order; loading ends; the selection is untouched |
| SearchPage.SearchResultsPage.SelectResult | hackatom/nuclear-life/app/search/page.tsx:282 | clicking a result card selects that result and changes nothing else |
| SearchPage.SearchResultsPage.AtMostOneHighlighted | hackatom/nuclear-life/app/search/page.tsx:284 | after a search at most one card is highlighted, because result ids are distinct |
| SearchBar.FilterResults | hackatom/nuclear-life/components/SearchBar.tsx:63-68 | at most eight results; every result is an item of the list whose lower-cased title, description or category contains the lower-cased query; they are the first min(8, #matches) matches, in list order; with at most eight matches every match is listed |
| SearchBar.ItemMatchesPrefix | hackatom/nuclear-life/components/SearchBar.tsx:64-66 | the item test (lower-cased title, description or category containing the lower-cased query): an item matching a query matches every prefix of it |
| SearchBar.ExtendingQueryNarrows | hackatom/nuclear-life/components/SearchBar.tsx:63-67 | every item matching a query extended by further characters also matches the query itself, so typing on only removes matches |
| SearchBar.FilterResultsSubsequence | hackatom/nuclear-life/components/SearchBar.tsx:63-68 | the results are a subsequence of the item list |
| SearchBar.ResultsFor | hackatom/nuclear-life/components/SearchBar.tsx:62-73 | a query of at most one character lists nothing; a longer one lists the filtered results |
| SearchBar.SearchDataShape | hackatom/nuclear-life/components/SearchBar.tsx:31-44 | twelve items with ids 1..12 |
| SearchBar.EarlyMatchListed | hackatom/nuclear-life/components/SearchBar.tsx:63-68 | a matching item among the first eight of the list is always listed |
| SearchBar.MedicineQueryFindsMedicineItems | hackatom/nuclear-life/components/SearchBar.tsx:32-68 | "me" finds Technetium-99m through its category, and "ME" finds Medical Imaging through its title |
| SearchBar.GetIcon | hackatom/nuclear-life/components/SearchBar.tsx:84-92 | every type other than the four known ones gets the magnifier |
| SearchBar.IconsDistinct | hackatom/nuclear-life/components/SearchBar.tsx:84-92 | the four known types get four different icons, none of them the magnifier |
| SearchBar.GetColor | hackatom/nuclear-life/components/SearchBar.tsx:94-103 | every category other than the five known ones gets the grey classes |
| SearchBar.CountText | hackatom/nuclear-life/components/SearchBar.tsx:163 | the count in decimal, then " result", with an "s" exactly when the count is not 1, then " found" |
| SearchBar.SearchBarWidget.constructor | hackatom/nuclear-life/components/SearchBar.tsx:20-23 | empty query, closed, no results, not mounted, nothing reported |
| SearchBar.SearchBarWidget.QueryEffect | hackatom/nuclear-life/components/SearchBar.tsx:59-74 | before mounting nothing changes; after, the results are those for the query and the dropdown is open exactly when the query has more than one character |
| SearchBar.SearchBarWidget.Mount | hackatom/nuclear-life/components/SearchBar.tsx:27-74 | mounting runs the filter effect for the current query |
| SearchBar.SearchBarWidget.Type | hackatom/nuclear-life/components/SearchBar.tsx:59-138 | typing replaces the query and refilters; the dropdown opens exactly for more than one character |
| SearchBar.SearchBarWidget.HandleSearch | hackatom/nuclear-life/components/SearchBar.tsx:59-82 | the query becomes the term, the term is reported once when a callback is given, the results are those for the term; the dropdown stays closed when the term equals the old query and otherwise reopens exactly for a term of two or more characters |
| SearchBar.SearchBarWidget.PickResult | hackatom/nuclear-life/components/SearchBar.tsx:76-168 | clicking a result searches for its title: the query becomes that title, the widget stays mounted, the results are refiltered for the title and the term is reported once when a callback is given; picking a title different from the typed text reopens the dropdown |
| SearchBar.SearchBarWidget.Clear | hackatom/nuclear-life/components/SearchBar.tsx:144-149 | the query becomes empty, the dropdown closes and the results empty |
| SearchBar.SearchBarWidget.Focus | hackatom/nuclear-life/components/SearchBar.tsx:139 | focusing opens the dropdown when the query has more than one character; only the open flag is in its frame, and query, results, reports and the mount flag are stated unchanged |
| SearchBar.SearchBarWidget.ClickOutside | hackatom/nuclear-life/components/SearchBar.tsx:49-53 | a press outside closes the dropdown; only the open flag is in its frame, and query, results, reports and the mount flag are stated unchanged |
| SearchBar.SearchBarWidget.ShownResultsMatch | hackatom/nuclear-life/components/SearchBar.tsx:68-159 | in every state the operations reach, a shown dropdown lists at most eight matching items in list order for a query of more than one character |
| LegacySearchBar.SameResultsAsCurrentCopy | hackatom/components/SearchBar.tsx:18-61 | the older copy's list is the current copy's, so for every query the two filters give the same dropdown |
| LegacySearchBar.NewLegacyWidget | hackatom/components/SearchBar.tsx:18-131 | the older copy is the shared widget over its own list: same effect, handleSearch, focus and clear rules, starting empty and closed |
| LegacySearchBar.GetIcon | hackatom/components/SearchBar.tsx:71-79 | a type outside the four known ones gets the search icon, and a known type never does |
| LegacySearchBar.GetColor | hackatom/components/SearchBar.tsx:81-90 | every category other than the five known ones gets the grey classes |
| LegacySearchBar.ColorsArePrefixes | hackatom/components/SearchBar.tsx:81-90 | for every category, the current copy's colour is the older colour, a blank and that category's border class, so the older colour is a prefix of the current one |
| LegacySearchBar.CountText | hackatom/components/SearchBar.tsx:144 | the older count line is the current one without the trailing " found" |
| Resources.FilteredResources | hackatom/nuclear-life/app/resources/page.tsx:82-84 | "all" gives the whole list; any other key gives exactly the resources of that type |
| Resources.InitialListsEveryCard | hackatom/nuclear-life/app/resources/page.tsx:9-84 | the page opens on the first button's key "all" and lists every resource, each with its caption |
| Resources.FilteredResourcesOrdered | hackatom/nuclear-life/app/resources/page.tsx:82-84 | the filtered list keeps the order of the resource list |
| Resources.FeaturedResources | hackatom/nuclear-life/app/resources/page.tsx:86 | a resource is featured in the list exactly when its flag is set |
| Resources.FeaturedAreFirstTwo | hackatom/nuclear-life/app/resources/page.tsx:19-86 | the featured list is the first two resources, ids 1 and 2 |
| Resources.BadgeCountsDisagreeWithList | hackatom/nuclear-life/app/resources/page.tsx:11-84 | the counts are written in: "Research Papers (8)" filters to two resources and "All Resources (24)" to six |
| Resources.CountsBoundFilters | hackatom/nuclear-life/app/resources/page.tsx:11-84 | no button's key filters to more resources than its printed count |
| Resources.ExactlyPressedButtonActive | hackatom/nuclear-life/app/resources/page.tsx:128-133 | after pressing a button exactly that button is drawn as active |
| Resources.TypeLabel | hackatom/nuclear-life/app/resources/page.tsx:156 | the type label has the type's length, its first letter upper-cased and the rest unchanged |
| Resources.TypeBadgeClasses | hackatom/nuclear-life/app/resources/page.tsx:150-155 | every type other than research, industry and regulations gets the purple badge |
| Resources.TypeBadgesDistinct | hackatom/nuclear-life/app/resources/page.tsx:150-155 | the three known types get three different badges, none of them purple |
| EconomicComparison.HasIdMeansIn | hackatom/nuclear-life/app/modules/EconomicComparison.tsx:241-246 | in a game with distinct ids whose record holds only game entries, a slot's id is found in the record exactly when its entry is recorded |
| EconomicComparison.MatchingGameIdsDistinct | hackatom/nuclear-life/app/modules/EconomicComparison.tsx:94-99 | the four game entries have distinct ids |
| EconomicComparison.LengthTestIffAllMatched | hackatom/nuclear-life/app/modules/EconomicComparison.tsx:246-260 | when neither the game nor the record repeats an id, the record is as long as the game exactly when every slot is matched |
| EconomicComparison.MatchingBoard.constructor | hackatom/nuclear-life/app/modules/EconomicComparison.tsx:31-32 | nothing dragged and nothing recorded |
| EconomicComparison.MatchingBoard.DragStart | hackatom/nuclear-life/app/modules/EconomicComparison.tsx:211-213 | the picked isotope becomes the dragged item, whether or not it is matched; the record is unchanged |
| EconomicComparison.MatchingBoard.Drop | hackatom/nuclear-life/app/modules/EconomicComparison.tsx:234-238 | when the dragged id is the slot's, the slot's entry is appended (even if already there) and the drag is cleared; otherwise nothing changes; the record holds only game entries |
| EconomicComparison.MatchingBoard.DropOnce | hackatom/nuclear-life/app/modules/EconomicComparison.tsx:234-238 | the corrected drop: as the drop, except that a slot already recorded is not appended again, so a record without repeated ids keeps none; a drop on the dragged item's own slot always clears the drag |
| EconomicComparison.MatchingBoard.BannerIffAllSlotsMatched | hackatom/nuclear-life/app/modules/EconomicComparison.tsx:246-260 | with no id recorded twice, the banner shows exactly when every slot is drawn as matched |
| EconomicComparison.RepeatedDropsShowBanner | hackatom/nuclear-life/app/modules/EconomicComparison.tsx:213-260 | dropping Tc-99m on its own slot four times shows the banner while the second slot is still unmatched |
| EconomicComparison.RepeatedDropsOnce | hackatom/nuclear-life/app/modules/EconomicComparison.tsx:213-260 | with the corrected drop the same four drops record one entry and show no banner |
| LegacyEconomicComparison.NewLegacyBoard | hackatom/app/modules/EconomicComparison.tsx:8-213 | the older copy is the same board over its own list: nothing dragged, nothing recorded |
| LegacyEconomicComparison.SameIsotopesAsCurrentGame | hackatom/app/modules/EconomicComparison.tsx:65-70 | the older list has four entries with distinct ids pairing the same isotopes with the same ids as the current game |
| LegacyEconomicComparison.LegacyRepeatedDropsShowBanner | hackatom/app/modules/EconomicComparison.tsx:188-230 | dropping Co-60 on its slot four times shows the banner in the older copy with the first slot unmatched |
| LegacyEconomicComparison.RoundTenths | hackatom/app/modules/EconomicComparison.tsx:81 | the quotient in tenths rounded to nearest, halves up: 2·den·t ≤ 20·num + den < 2·den·(t+1) |
| LegacyEconomicComparison.Tenths | hackatom/app/modules/EconomicComparison.tsx:81 | a count of tenths printed as its whole part in decimal, a point, and its last digit |
| LegacyEconomicComparison.CalculateROI | hackatom/app/modules/EconomicComparison.tsx:78-82 | the payback text is investment/savings and the ROI text 100·savings/investment, each printed with one decimal rounded to nearest |
| LegacyEconomicComparison.RoiTableWellFormed | hackatom/app/modules/EconomicComparison.tsx:72-76 | every row saves something each year and less than it cost, so both divisions are defined |
| LegacyEconomicComparison.MedicalImagingFigures | hackatom/app/modules/EconomicComparison.tsx:73-145 | the medical-imaging card prints payback 2.0 and ROI 50.0 |
| LegacyEconomicComparison.FoodIrradiationFigures | hackatom/app/modules/EconomicComparison.tsx:74-145 | the food-irradiation card prints payback 1.3 and ROI 75.0 |
| LegacyEconomicComparison.IndustrialTestingFigures | hackatom/app/modules/EconomicComparison.tsx:75-145 | the industrial-testing card prints payback 1.9 and ROI 53.3 |
| Notifications.Prepend | hackatom/components/NotificationSystem.tsx:216 | the new entry comes first, followed by the first min(n, 4) old entries in order, so the list never exceeds five |
| Notifications.MarkRead | hackatom/components/NotificationSystem.tsx:226-228 | marking keeps the length of the list |
| Notifications.MarkReadEffect | hackatom/components/NotificationSystem.tsx:225-229 | marking sets the flag exactly on the entries with that id and keeps every id, message, kind, other flag and the order |
| Notifications.MarkReadIdempotent | hackatom/components/NotificationSystem.tsx:225-229 | marking twice is the same as marking once |
| Notifications.Remove | hackatom/components/NotificationSystem.tsx:221-324 | an entry survives exactly when its id differs from the one removed |
| Notifications.RemoveEffect | hackatom/components/NotificationSystem.tsx:221-324 | removal keeps the other entries in their order, leaves no entry with that id, and removing again changes nothing |
| Notifications.RemoveAgain | hackatom/components/NotificationSystem.tsx:221-324 | removing the same id twice is removing it once |
| Notifications.AutoCloseTime | hackatom/components/NotificationSystem.tsx:219 | 10000 ms for errors, 8000 for warnings, 6000 for anything else |
| Notifications.HoursSince | hackatom/components/NotificationSystem.tsx:40-41 | the whole number of hours elapsed, rounded down |
| Notifications.NotificationIcon | hackatom/components/NotificationSystem.tsx:231-239 | any kind but the four known ones gets the default bell icon |
| Notifications.NotificationBg | hackatom/components/NotificationSystem.tsx:241-249 | any kind but the four known ones gets the white background |
| Notifications.BackgroundsDistinct | hackatom/components/NotificationSystem.tsx:241-249 | the four known kinds get four different backgrounds, none of them the default |
| Notifications.NotificationCenter.constructor | hackatom/components/NotificationSystem.tsx:7-9 | permission "default", unsupported, no notifications; the stored visit and reminder flags and whether the browser's notification constructor throws on `actions` are given |
| Notifications.NotificationCenter.AddInAppNotification | hackatom/components/NotificationSystem.tsx:207-223 | the new unread entry, with the given kind or "info", is put first and the list keeps five; it is removed after the kind's auto-close time; nothing else changes |
| Notifications.NotificationCenter.MarkAsRead | hackatom/components/NotificationSystem.tsx:225-229 | the list becomes the marked list; only the list is in its frame, so every other field is unchanged |
| Notifications.NotificationCenter.Dismiss | hackatom/components/NotificationSystem.tsx:221-324 | the list loses exactly the entries with that id; only the list is in its frame, so every other field is unchanged |
| Notifications.NotificationCenter.TrackActivity | hackatom/components/NotificationSystem.tsx:28-32 | both stored instants become now; only those two fields are in its frame, so nothing else changes |
| Notifications.NotificationCenter.ShowReturnNotification | hackatom/components/NotificationSystem.tsx:130-184 | it reports a throw exactly when permission is granted and the constructor throws, and then shows nothing; with permission granted and a constructor that returns, one system notification and one in-app "Welcome back" entry; without permission nothing; only the return counter and the list are in its frame |
| Notifications.NotificationCenter.CheckReturnVisit | hackatom/components/NotificationSystem.tsx:35-54 | with h whole hours since the last visit a reminder is due exactly when h ≥ 24, no reminder is on record and permission is granted; if the constructor then throws, the check ends with nothing shown, recorded or cleared; otherwise a due reminder prepends the "Welcome back" entry, counts it and records the instant, and independently the record is cleared exactly when h ≥ 48; nothing without a stored visit; only the counter, the list and the record are in its frame |
| Notifications.NotificationCenter.Mount | hackatom/components/NotificationSystem.tsx:11-64 | support and permission are adopted from the browser; the visit is recorded before the check, so the first check never reminds; the browser's permission and the welcome counter are outside its frame |
| Notifications.NotificationCenter.RequestPermission | hackatom/components/NotificationSystem.tsx:78-117 | nothing without support; an answer becomes both the browser's and the component's permission, and the banner stays exactly when the answer is "default"; a granted answer then shows the welcome and a success entry, or, when the constructor throws, only the catch's error entry; any other answer a warning entry; a failed request an error entry with both permissions unchanged; the welcome counter rises only for a granted answer whose constructor returns; the stored instants, the record and the return counter are outside its frame |
| Notifications.NotificationCenter.MaybeLater | hackatom/components/NotificationSystem.tsx:282 | only the component's permission becomes "denied" (the only field in its frame), so the banner is hidden; the browser's permission is untouched |
| Notifications.ReminderCycle | hackatom/components/NotificationSystem.tsx:35-54 | with a constructor that returns: one reminder after a day, none on the next check while the record stands, and a second once the record is cleared at two days; with one that throws: the checks after a day each throw and nothing is ever shown |
| NewsUpdates.MockNews | hackatom/nuclear-life/components/NewsUpdates.tsx:23-64 | a fetch gives five articles with ids 1 to 5 in order |
| NewsUpdates.MinutesBetween | hackatom/nuclear-life/components/NewsUpdates.tsx:79 | the whole minutes elapsed, rounded down also for a timestamp ahead of the clock |
| NewsUpdates.AgeOf | hackatom/nuclear-life/components/NewsUpdates.tsx:81-83 | below 60 minutes the age is in minutes; below a day it is in hours with a value in 1..23 and the floor bounds; from a day on it is in days with a value of at least 1 and the floor bounds |
| NewsUpdates.AgeMonotone | hackatom/nuclear-life/components/NewsUpdates.tsx:81-83 | an older timestamp never gets a finer unit, nor a smaller value in the same unit |
| NewsUpdates.Render | hackatom/nuclear-life/components/NewsUpdates.tsx:81-83 | the label is the value in decimal, the unit letter, and " ago" |
| NewsUpdates.GetTimeAgo | hackatom/nuclear-life/components/NewsUpdates.tsx:77-84 | the label ends in " ago" after a unit letter that is 'm' exactly below an hour, 'h' exactly from one hour to below a day, and 'd' exactly from a day on |
| NewsUpdates.ParseTimeAgo | hackatom/nuclear-life/components/NewsUpdates.tsx:81-83 | the inverse of the label format: a label is accepted only if it is digits, a unit letter and " ago", and the age read has that unit and a non-negative value |
| NewsUpdates.TimeAgoRoundTrip | hackatom/nuclear-life/components/NewsUpdates.tsx:77-84 | the label of a timestamp in the past reads back as exactly the band and value it was made from |
| NewsUpdates.OneDayIsOneDay | hackatom/nuclear-life/components/NewsUpdates.tsx:60-83 | exactly 24 hours ago is labelled "1d ago", not in hours |
| NewsUpdates.FutureTimestampInMinutes | hackatom/nuclear-life/components/NewsUpdates.tsx:79-81 | a timestamp ahead of the clock falls in the minutes band with a negative value |
| NewsUpdates.HalfMinuteAheadLabel | hackatom/nuclear-life/components/NewsUpdates.tsx:79-81 | half a minute ahead of the clock is labelled "-1m ago" |
| NewsUpdates.HoursAgoLabel | hackatom/nuclear-life/components/NewsUpdates.tsx:79-82 | an article h whole hours old, for h in 1..23, is labelled "{h}h ago" |
| NewsUpdates.Labels | hackatom/nuclear-life/components/NewsUpdates.tsx:77-129 | one label per article, each the time-ago label of its timestamp |
| NewsUpdates.FreshLabels | hackatom/nuclear-life/components/NewsUpdates.tsx:23-84 | read at the moment of their fetch, whatever it is, the articles are labelled 2h, 6h, 12h, 18h and 1d ago |
| NewsUpdates.GetCategoryColor | hackatom/nuclear-life/components/NewsUpdates.tsx:86-95 | any category but the five known ones gets the grey badge |
| NewsUpdates.CategoryColorsDistinct | hackatom/nuclear-life/components/NewsUpdates.tsx:86-95 | the five known categories get five different badges, none of them grey |
| NewsUpdates.BorderClass | hackatom/nuclear-life/components/NewsUpdates.tsx:130 | the border is red exactly for urgent articles |
| NewsUpdates.NewsFeed.constructor | hackatom/nuclear-life/components/NewsUpdates.tsx:16-17 | no articles, loading |
| NewsUpdates.NewsFeed.FetchNews | hackatom/nuclear-life/components/NewsUpdates.tsx:21-68 | the articles become the fetch's five articles and loading ends |
| NewsUpdates.MountAndRefresh | hackatom/nuclear-life/components/NewsUpdates.tsx:19-97 | the mount fetch and a refresh thirty minutes later each show the same five labels at their own fetch time, and the skeleton is gone |
| Manufacturing.CalculateFinancials | hackatom/app/manufacturing/page.tsx:111-134 | the result exists exactly when the isotope's entry and the size's costs and revenue entries exist; then profit is revenue minus operating cost, total profit is profit times the horizon, NPV is total profit minus the build cost, ROI is 100 times NPV over the build cost, payback is the build cost over the yearly profit, and the build cost, operating cost and revenue are the looked-up entries of the selected size |
| Manufacturing.ManufacturingDataWellFormed | hackatom/app/manufacturing/page.tsx:36-109 | the page's table has distinct isotope keys, and each facility lists the same distinct sizes in costs and revenue, with a positive build cost and revenue above operating cost at every size |
| Manufacturing.InitialReachable | hackatom/app/manufacturing/page.tsx:9-12 | the initial tc-99m, small, 10-year state selects table entries and a menu horizon |
| Manufacturing.SelectIsotope | hackatom/app/manufacturing/page.tsx:166-169 | an isotope button makes the current facility the pressed entry (with distinct isotope keys) and keeps size, horizon and investment amount |
| Manufacturing.SelectSize | hackatom/app/manufacturing/page.tsx:190-193 | a size button selects one of the current facility's sizes, whose costs lookup then finds the pressed entry (with distinct sizes), and keeps isotope, facility, horizon and investment amount |
| Manufacturing.SetTimeHorizon | hackatom/app/manufacturing/page.tsx:223-231 | the menu selects one of its horizons, all at least five years, and keeps isotope, size and investment amount |
| Manufacturing.SelectIsotopePreserves | hackatom/app/manufacturing/page.tsx:166-169 | when all facilities offer the same sizes, an isotope button keeps the selection valid although it keeps the old size |
| Manufacturing.SelectSizePreserves | hackatom/app/manufacturing/page.tsx:190-193 | a size button of the current facility keeps the selection valid |
| Manufacturing.SetTimeHorizonPreserves | hackatom/app/manufacturing/page.tsx:223-231 | a horizon menu choice keeps the selection valid |
| Manufacturing.SameSizesEverywhere | hackatom/app/manufacturing/page.tsx:36-109 | the three facilities offer the same three sizes |
| Manufacturing.ReachableLookups | hackatom/app/manufacturing/page.tsx:111-118 | in a valid selection of a well-formed table both size lookups succeed, the build cost is positive and revenue exceeds operating cost |
| Manufacturing.ReachableFinancials | hackatom/app/manufacturing/page.tsx:114-134 | in a valid selection the projection exists, the yearly profit and both divisors are positive, and ROI has the sign of NPV |
| Manufacturing.InvestmentAmountUnused | hackatom/app/manufacturing/page.tsx:11-134 | the investment amount in the state does not affect the projection |
| Manufacturing.Run | hackatom/app/manufacturing/page.tsx:166-231 | any run of presses from a valid selection ends in a valid selection |
| Manufacturing.ApplyPreserves | hackatom/app/manufacturing/page.tsx:166-231 | a single press keeps a valid selection valid |
| Manufacturing.PrintedMarginUnderstates | hackatom/app/manufacturing/page.tsx:294 | the printed constant margin of each facility is below the margin its revenue and operating cost give at every size |
| Manufacturing.EveryRunHasFinancials | hackatom/app/manufacturing/page.tsx:9-136 | whatever the user presses, the projection exists, the yearly profit is positive and the NPV is positive |
| Manufacturing.ManufacturingDataPaysBackInFive | hackatom/app/manufacturing/page.tsx:36-109 | every size of every facility recovers its build cost in under five years of profit |
| Manufacturing.SizePaysBack | hackatom/app/manufacturing/page.tsx:114-119 | a size offered by a well-formed facility that pays back in five years is found in both lists, earns more than it costs to run, and its build cost is below five years of profit |
| Manufacturing.ReachableNpvPositive | hackatom/app/manufacturing/page.tsx:120-231 | a table that pays back in five years has a positive NPV at every menu horizon |
| CostAnalyzer.CurrentIsotope | hackatom/nuclear-life/app/analysis/IsotopeCostAnalyzer.tsx:137 | `isotopes[selectedIsotope]` finds an entry exactly when the key is one of the table's, and the entry found has that key |
| CostAnalyzer.SelectionAlwaysDefined | hackatom/nuclear-life/app/analysis/IsotopeCostAnalyzer.tsx:27-187 | the initial key and the key of every isotope button find their table entry |
| CostAnalyzer.RegionName | hackatom/nuclear-life/app/analysis/IsotopeCostAnalyzer.tsx:261 | the caption is the text before the first ':': a colon-free prefix of the string, followed by ':' unless it is the whole string |
| CostAnalyzer.RegionPercentage | hackatom/nuclear-life/app/analysis/IsotopeCostAnalyzer.tsx:266-269 | there is a percentage part exactly when the string holds a ':' (without one the page calls `trim` on `undefined`); it holds no ':' and has no whitespace at either end |
| CostAnalyzer.SplitRegionText | hackatom/nuclear-life/app/analysis/IsotopeCostAnalyzer.tsx:261-266 | splitting a region string at ':' gives exactly the region name and the percentage part |
| CostAnalyzer.TrimPercentSuffix | hackatom/nuclear-life/app/analysis/IsotopeCostAnalyzer.tsx:266-269 | trimming the percentage part drops its leading blank |
| CostAnalyzer.ParsePercentText | hackatom/nuclear-life/app/analysis/IsotopeCostAnalyzer.tsx:266-269 | a percentage string reads back as the number it was written from |
| CostAnalyzer.RegionTextRoundTrip | hackatom/nuclear-life/app/analysis/IsotopeCostAnalyzer.tsx:259-269 | a region string has one ':', its caption is the region name, and its bar width is the written percentage, which reads back as the share |
| CostAnalyzer.RegionTexts | hackatom/nuclear-life/app/analysis/IsotopeCostAnalyzer.tsx:63 | one region string per share, each the text of that share |
| CostAnalyzer.SumOfShares | hackatom/nuclear-life/app/analysis/IsotopeCostAnalyzer.tsx:259-269 | the sum of the shares' percentages as optional numbers is the plain sum |
| CostAnalyzer.RegionTotalOfTexts | hackatom/nuclear-life/app/analysis/IsotopeCostAnalyzer.tsx:259-269 | the percentages read back from the strings of a list of shares add up to the shares' total |
| CostAnalyzer.FourRegionTexts | hackatom/nuclear-life/app/analysis/IsotopeCostAnalyzer.tsx:63 | four region strings that each render their share are the texts of those four shares |
| CostAnalyzer.TcRegionTexts | hackatom/nuclear-life/app/analysis/IsotopeCostAnalyzer.tsx:63 | Tc-99m's region strings are the texts of its four shares |
| CostAnalyzer.CoRegionTexts | hackatom/nuclear-life/app/analysis/IsotopeCostAnalyzer.tsx:79 | Co-60's region strings are the texts of its four shares |
| CostAnalyzer.IRegionTexts | hackatom/nuclear-life/app/analysis/IsotopeCostAnalyzer.tsx:95 | I-131's region strings are the texts of its four shares |
| CostAnalyzer.PuRegionTexts | hackatom/nuclear-life/app/analysis/IsotopeCostAnalyzer.tsx:111 | Pu-238's region strings are the texts of its four shares |
| CostAnalyzer.CsRegionTexts | hackatom/nuclear-life/app/analysis/IsotopeCostAnalyzer.tsx:127 | Cs-137's region strings are the texts of its four shares |
| CostAnalyzer.RegionsAreShareTexts | hackatom/nuclear-life/app/analysis/IsotopeCostAnalyzer.tsx:54-135 | every isotope's region strings are the texts of its shares |
| CostAnalyzer.SharesWellFormed | hackatom/nuclear-life/app/analysis/IsotopeCostAnalyzer.tsx:54-135 | every isotope's shares add up to 100 and no region name holds a ':' |
| CostAnalyzer.RegionTextsTotal | hackatom/nuclear-life/app/analysis/IsotopeCostAnalyzer.tsx:259-269 | strings made from shares each hold one ':' and read back to the shares' total |
| CostAnalyzer.RegionsSumToHundred | hackatom/nuclear-life/app/analysis/IsotopeCostAnalyzer.tsx:54-269 | for every isotope all region strings hold one ':' and the bars read from them add up to 100 percent |
| CostAnalyzer.FuturePricesIncrease | hackatom/nuclear-life/app/analysis/IsotopeCostAnalyzer.tsx:67-353 | every projection has five strictly rising prices starting at today's, so the 5-year price shown exceeds today's |
| CostAnalyzer.MarginMatchesPrices | hackatom/nuclear-life/app/analysis/IsotopeCostAnalyzer.tsx:400-415 | every isotope's printed margin percentage is price minus cost over price, and the cost and margin bars fill the width together |
| CostAnalyzer.RiskCardOf | hackatom/nuclear-life/app/analysis/IsotopeCostAnalyzer.tsx:698-730 | the impact and the probability of a risk card are both risk levels |
| CostAnalyzer.RiskCardProperties | hackatom/nuclear-life/app/analysis/IsotopeCostAnalyzer.tsx:698-730 | impact and probability always differ, probability is the next card's impact, cards repeat every three, and the red colour goes with High impact |
| CostAnalyzer.ThreeRiskLevelsShown | hackatom/nuclear-life/app/analysis/IsotopeCostAnalyzer.tsx:698-702 | every isotope lists three risks, shown as High, Medium and Low |
| CostAnalyzer.CompetitorCardOf | hackatom/nuclear-life/app/analysis/IsotopeCostAnalyzer.tsx:824-845 | the first competitor is the global high-capacity Leader, the second the regional Major, all others local low-capacity Emerging |
| CostAnalyzer.CompetitorShares | hackatom/nuclear-life/app/analysis/IsotopeCostAnalyzer.tsx:836 | shares fall ten points per position; every isotope lists three competitors, whose shares add up to 75 and are all positive |
| Dashboard.SelectedStats | hackatom/nuclear-life/app/dashboard/page.tsx:187 | `regions[selectedRegion]` finds an entry exactly when the key is one of the table's, and the entry found has that key |
| Dashboard.Heading | hackatom/nuclear-life/app/dashboard/page.tsx:187-201 | a heading exists exactly for a table key, and it is the region's name followed by " Statistics" |
| Dashboard.RegionKeysDistinct | hackatom/nuclear-life/app/dashboard/page.tsx:41-47 | the table's keys are global, northAmerica, europe, asia and other, all distinct |
| Dashboard.StatsButtonsDefined | hackatom/nuclear-life/app/dashboard/page.tsx:10-161 | the initial key and every statistics button's key find their entry |
| Dashboard.MapButtonsMissKeys | hackatom/nuclear-life/app/dashboard/page.tsx:138-187 | the second and fourth map buttons set keys missing from the table, so the panel has no region and no heading |
| Dashboard.CorrectedMapButtonsDefined | hackatom/nuclear-life/app/dashboard/page.tsx:138-141 | every corrected map button sets a table key |
| Dashboard.RunStaysInTable | hackatom/nuclear-life/app/dashboard/page.tsx:138-168 | when the map keys all name entries, every run of presses from a table key ends on a table key |
| Dashboard.CorrectedDashboardAlwaysDefined | hackatom/nuclear-life/app/dashboard/page.tsx:10-187 | with the corrected map keys, the panel has a region after any run of presses |
| Dashboard.OnePressLosesRegion | hackatom/nuclear-life/app/dashboard/page.tsx:10-187 | as written, one press on the second map button leaves the panel without a region |
| Dashboard.MapSelectionUnmatchedBelow | hackatom/nuclear-life/app/dashboard/page.tsx:138-168 | as written, the keys of the map buttons "north-america" and "asia-pacific" equal no statistics button's key, while "global" and "europe" each equal exactly the statistics key at the same position |
| Dashboard.CorrectedMapButtonsMatchStats | hackatom/nuclear-life/app/dashboard/page.tsx:138-168 | with the corrected keys, map button k sets the key of statistics button k and of no other statistics button |
| Dashboard.ReplaceFirstDash | hackatom/nuclear-life/app/dashboard/page.tsx:148 | the caption has the key's length, and only the first dash, if any, becomes a blank |
| Dashboard.ReplaceAtFirstDash | hackatom/nuclear-life/app/dashboard/page.tsx:148 | a key with a dash that none precede has that dash turned into a blank, and nothing else changed |
| Dashboard.FacilitiesAddUp | hackatom/nuclear-life/app/dashboard/page.tsx:42-46 | the four regional facility counts add up to the global count |
| Dashboard.BarsFitChart | hackatom/nuclear-life/app/dashboard/page.tsx:49-218 | every market bar is shorter than the chart and the bars rise year by year |

## Left out

- Rendering: JSX markup, Tailwind classes other than the colour and badge mappings, animations, images and the landing and overview pages. They are presentation only.
- `Header.tsx` and the other menu and layout components: dropdown UI and a stored language choice, with no state logic behind them.
- Speech synthesis, the browser Notification API's display, the service-worker registration and `window.location`: these call into the browser. Permission is a parameter.
- `Math.random` title choice for the return-visit notification: the title is a parameter.
- `localStorage`, `Date.now`, `setTimeout` and `setInterval`: stored values are fields (the notification instants and the quiz's saved progress, `LevelQuiz.QuizPage.saved`), clock readings are parameters, and each timer callback or interval tick is an explicit operation. The user-activity listeners reduce to `TrackActivity`.
- React effect scheduling: an effect is modelled as the recomputation that runs after its dependency changes, not as deferred work.
- Chat message timestamps (`Date` objects): messages carry id, sender and text only.
- The chatbot's reply wording: a reply is modelled by its kind (isotope entry, manufacturing, cost, safety, applications, fallback), not by its text.
- The search page's detail sections other than the applications list, and the resource library's descriptions and links: display text that no filter reads. The resource cards' titles, sources and dates are kept in a caption list beside the resource list, by position.
- The level quiz's explanations and the economics page's comparison-text tables: display text only.
- The atom diagram's SVG coordinates and trigonometry: floating-point geometry. Shell radii are stated as integers.
- Floating-point displays: manufacturing payback and ROI `toFixed`, the equipment cost shares, the analyzer's rounded cost and growth percentages, `calculateProfitability` and its `Math.pow`. Only integer and sign facts about them are stated.
- LegacyEconomicComparison.CalculateROI: requires positive investment and savings. The source's `Infinity`/`NaN` results for a zero divisor are not modelled, since every table entry is positive (`RoiTableWellFormed`).
- LegacyEconomicComparison.RoundTenths: `toFixed(1)` is modelled as exact decimal round-half-up. The binary rounding of doubles, which can differ near a half-tenth, is not modelled.
- The analyzer's analysis-type tabs, time horizon, investment amount and opportunity lists: display state only read by markup or by `calculateProfitability`.
- The dashboard's carbon-savings and average-growth prose, and the captions of its map buttons. `ReplaceFirstDash` models `replace('-', ' ')`, but the four captions are not stated one by one.
- The manufacturing page's descriptions, regulations and risk lists, and its reading-aloud state: display text.
- `toLowerCase` is modelled on the ASCII letters A-Z only. Full Unicode case mapping is not modelled, nor UTF-16 `.length`. For instance, U+212A KELVIN SIGN lower-cases to 'k' in JavaScript but is kept by `ToLower`. `Chatbot.Mentions`, `SearchPage.Matches` and `SearchBar.ItemMatches` inherit this.

## Findings

| source | as written | input that shows it | evidently intended | confidence | as-written member | corrected member |
|---|---|---|---|---|---|---|
| hackatom/nuclear-life/app/modules/EconomicComparison.tsx:234-238,260 and hackatom/app/modules/EconomicComparison.tsx:208-213,230 | a drop appends the item whenever the ids match, even if it was matched before, and the banner tests the list's length against 4 | drag Tc-99m onto its own slot four times: the banner shows while three slots are unmatched | an item is recorded at most once, so the banner shows exactly when every slot is matched | not executed | EconomicComparison.RepeatedDropsShowBanner, LegacyEconomicComparison.LegacyRepeatedDropsShowBanner | EconomicComparison.MatchingBoard.DropOnce, EconomicComparison.MatchingBoard.BannerIffAllSlotsMatched, EconomicComparison.RepeatedDropsOnce |
| hackatom/nuclear-life/app/dashboard/page.tsx:138-141,187 | the map buttons set 'north-america' and 'asia-pacific', keys the regions table does not have, so `.name` is read from `undefined` | one press on the second map button | the map buttons set the table's keys 'northAmerica' and 'asia' | not executed | Dashboard.MapButtonsMissKeys, Dashboard.OnePressLosesRegion | Dashboard.CorrectedMapButtonsDefined, Dashboard.CorrectedDashboardAlwaysDefined |
