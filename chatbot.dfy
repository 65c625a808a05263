/** The assistant page: an ordered keyword router from a question to one of
    a fixed set of reply templates, and the message list it appends to. */
module Chatbot {
  import opened Common

  /** A knowledge-base isotope entry, keyed by its lower-case short name. */
  datatype KbIsotope = KbIsotope(
    key: string,
    name: string,
    halfLife: string,
    uses: string,
    cost: string,
    production: string,
    safety: string,
    applications: seq<string>)

  /** The isotope entries in the order the router tries them. */
  const KnowledgeIsotopes: seq<KbIsotope> := [
    KbIsotope("tc-99m", "Technetium-99m", "6 hours", "Medical imaging, SPECT scans", "$150/Ci",
      "Nuclear reactors", "Low radiation, short half-life", ["Heart imaging", "Bone scans", "Brain imaging"]),
    KbIsotope("co-60", "Cobalt-60", "5.3 years", "Cancer treatment, sterilization", "$1000/Ci",
      "Nuclear reactors", "High energy gamma rays", ["Radiotherapy", "Food sterilization", "Medical device sterilization"]),
    KbIsotope("i-131", "Iodine-131", "8 days", "Thyroid treatment", "$200/Ci",
      "Fission products", "Beta and gamma radiation", ["Thyroid cancer", "Hyperthyroidism", "Thyroid ablation"]),
    KbIsotope("pu-238", "Plutonium-238", "87.7 years", "Space power systems", "$50000/Ci",
      "Neptunium irradiation", "Alpha radiation, high security", ["RTGs", "Deep space missions", "Mars rovers"]),
    KbIsotope("cs-137", "Cesium-137", "30 years", "Industrial gauging", "$500/Ci",
      "Fission byproduct", "Beta and gamma radiation", ["Thickness gauging", "Level detection", "Well logging"])
  ]

  /** The reply templates. An isotope reply is filled in from its entry;
      the wording of the templates is not modelled. */
  datatype Reply =
    | IsotopeInfo(entry: KbIsotope)
    | ManufacturingInfo
    | EconomicsInfo
    | SafetyInfo
    | ApplicationsInfo
    | Fallback

  /** The (lower-cased) query names the entry by key or by name. */
  predicate Mentions(query: string, e: KbIsotope) {
    Includes(query, e.key) || Includes(query, ToLower(e.name))
  }

  /** Words around a question never lose a mention of an entry. */
  lemma {:induction false} MentionInContext(query: string, before: string, after: string, e: KbIsotope)
    requires Mentions(query, e)
    ensures Mentions(before + query + after, e)
  {
    if Includes(query, e.key) {
      IncludesInContext(query, before, after, e.key);
    } else {
      IncludesInContext(query, before, after, ToLower(e.name));
    }
  }

  /** The query contains one of the words. */
  predicate ContainsAny(query: string, words: seq<string>) {
    words != [] && (Includes(query, words[0]) || ContainsAny(query, words[1..]))
  }

  /** Index of the first entry at or after `from` that the query mentions. */
  function FirstMention(query: string, entries: seq<KbIsotope>, from: nat): (r: Option<nat>)
    requires from <= |entries|
    ensures r.Some? ==>
      from <= r.value < |entries| && Mentions(query, entries[r.value])
      && forall j :: from <= j < r.value ==> !Mentions(query, entries[j])
    ensures r.None? ==> forall j :: from <= j < |entries| ==> !Mentions(query, entries[j])
    decreases |entries| - from
  {
    if from == |entries| then None
    else if Mentions(query, entries[from]) then Some(from)
    else FirstMention(query, entries, from + 1)
  }

  const ManufacturingWords: seq<string> := ["manufacturing", "build", "facility"]
  const EconomicsWords: seq<string> := ["cost", "price", "economic"]
  const SafetyWords: seq<string> := ["safety", "risk", "danger"]
  const ApplicationWords: seq<string> := ["application", "use"]

  /** `generateResponse`: the first rule that applies to the lower-cased input wins. */
  function GenerateResponse(input: string): (r: Reply)
    ensures var q := ToLower(input);
      match FirstMention(q, KnowledgeIsotopes, 0)
      case Some(i) => r == IsotopeInfo(KnowledgeIsotopes[i])
      case None =>
        !r.IsotopeInfo?
        && (r == ManufacturingInfo <==> ContainsAny(q, ManufacturingWords))
        && (r == EconomicsInfo <==> !ContainsAny(q, ManufacturingWords) && ContainsAny(q, EconomicsWords))
        && (r == SafetyInfo <==>
              !ContainsAny(q, ManufacturingWords) && !ContainsAny(q, EconomicsWords) && ContainsAny(q, SafetyWords))
        && (r == ApplicationsInfo <==>
              !ContainsAny(q, ManufacturingWords) && !ContainsAny(q, EconomicsWords)
              && !ContainsAny(q, SafetyWords) && ContainsAny(q, ApplicationWords))
  {
    var query := ToLower(input);
    match FirstMention(query, KnowledgeIsotopes, 0)
    case Some(i) => IsotopeInfo(KnowledgeIsotopes[i])
    case None =>
      if ContainsAny(query, ManufacturingWords) then ManufacturingInfo
      else if ContainsAny(query, EconomicsWords) then EconomicsInfo
      else if ContainsAny(query, SafetyWords) then SafetyInfo
      else if ContainsAny(query, ApplicationWords) then ApplicationsInfo
      else Fallback
  }

  /** An isotope reply answers with the first entry the query mentions. */
  lemma {:induction false} IsotopeReplyIsFirstMention(input: string)
    requires GenerateResponse(input).IsotopeInfo?
    ensures var e := GenerateResponse(input).entry;
      e in KnowledgeIsotopes && Mentions(ToLower(input), e)
      && forall j :: 0 <= j < |KnowledgeIsotopes| && KnowledgeIsotopes[j] == e ==>
        forall k :: 0 <= k < j ==> !Mentions(ToLower(input), KnowledgeIsotopes[k])
  {
    var q := ToLower(input);
    var i := FirstMention(q, KnowledgeIsotopes, 0).value;
    forall j | 0 <= j < |KnowledgeIsotopes| && KnowledgeIsotopes[j] == KnowledgeIsotopes[i]
      ensures j == i
    {
      KeysDistinct();
    }
  }

  lemma {:induction false} KeysDistinct()
    ensures forall i, j :: 0 <= i < j < |KnowledgeIsotopes| ==> KnowledgeIsotopes[i] != KnowledgeIsotopes[j]
  {
  }

  /** The reply depends on the input only through its lower-case form. */
  lemma {:induction false} ResponseIgnoresCase(input: string)
    ensures GenerateResponse(ToLower(input)) == GenerateResponse(input)
  {
    ToLowerIdempotent(input);
  }

  /** Every key and lower-cased name contains a hyphen, so a query without
      one never gets an isotope reply. */
  lemma {:induction false} NoHyphenNoIsotope(query: string)
    requires '-' !in query
    ensures FirstMention(query, KnowledgeIsotopes, 0).None?
  {
    var kb := KnowledgeIsotopes;
    HyphenedNotMentioned(query, kb[0], 2, 10);
    HyphenedNotMentioned(query, kb[1], 2, 6);
    HyphenedNotMentioned(query, kb[2], 1, 6);
    HyphenedNotMentioned(query, kb[3], 2, 9);
    HyphenedNotMentioned(query, kb[4], 2, 6);
  }

  lemma {:induction false} HyphenedNotMentioned(query: string, e: KbIsotope, inKey: nat, inName: nat)
    requires '-' !in query
    requires inKey < |e.key| && e.key[inKey] == '-'
    requires inName < |e.name| && e.name[inName] == '-'
    ensures !Mentions(query, e)
  {
    assert ToLower(e.name)[inName] == '-';
    MissingCharExcludes(query, e.key, '-');
    MissingCharExcludes(query, ToLower(e.name), '-');
  }

  /** Matching is by substring: "because" contains "use" and no earlier
      keyword, so it gets the applications reply. */
  lemma {:induction false} BecauseGetsApplications()
    ensures GenerateResponse("because") == ApplicationsInfo
  {
    var q := "because";
    assert ToLower(q) == q;
    NoHyphenNoIsotope(q);
    BecauseKeywords();
  }

  lemma {:induction false} BecauseKeywords()
    ensures !ContainsAny("because", ManufacturingWords)
    ensures !ContainsAny("because", EconomicsWords)
    ensures !ContainsAny("because", SafetyWords)
    ensures ContainsAny("because", ApplicationWords)
  {
    BecauseNoManufacturingWord();
    BecauseNoEconomicsWord();
    BecauseNoSafetyWord();
    assert OccursAt("because", "use", 4);
  }

  lemma {:induction false} BecauseNoManufacturingWord()
    ensures !ContainsAny("because", ManufacturingWords)
  {
    MissingCharExcludes("because", "manufacturing", 'm');
    MissingCharExcludes("because", "build", 'i');
    MissingCharExcludes("because", "facility", 'f');
  }

  lemma {:induction false} BecauseNoEconomicsWord()
    ensures !ContainsAny("because", EconomicsWords)
  {
    MissingCharExcludes("because", "cost", 'o');
    MissingCharExcludes("because", "price", 'p');
    MissingCharExcludes("because", "economic", 'o');
  }

  lemma {:induction false} BecauseNoSafetyWord()
    ensures !ContainsAny("because", SafetyWords)
  {
    MissingCharExcludes("because", "safety", 'f');
    MissingCharExcludes("because", "risk", 'r');
    MissingCharExcludes("because", "danger", 'd');
  }

  /** The example the fallback reply suggests gets the isotope reply for
      Technetium-99m, although it also asks about cost and a facility. */
  lemma {:induction false} SampleQuestionGetsIsotopeReply()
    ensures GenerateResponse("What's the cost of building a Tc-99m production facility?")
      == IsotopeInfo(KnowledgeIsotopes[0])
  {
    var s := "What's the cost of building a Tc-99m production facility?";
    var q := ToLower(s);
    assert q[30..36] == "tc-99m" by {
      assert s[30] == 'T' && s[31] == 'c' && s[32] == '-' && s[33] == '9' && s[34] == '9' && s[35] == 'm';
    }
    assert OccursAt(q, KnowledgeIsotopes[0].key, 30);
  }

  datatype Sender = User | Bot

  /** A message body: text as typed (or the fixed welcome), or a generated reply. */
  datatype Body = Text(text: string) | Generated(reply: Reply)

  datatype Message = Message(id: int, body: Body, sender: Sender)

  const WelcomeText: string := "Hello! I'm your AI assistant for nuclear technology and isotopes. Ask me anything about isotope applications, costs, safety, manufacturing, or any nuclear technology topics!"

  const QuickQuestions: seq<string> := [
    "What is Technetium-99m used for?",
    "How much does it cost to build a nuclear facility?",
    "What are the safety risks of isotopes?",
    "Which isotopes are most profitable?",
    "How do nuclear applications compare economically?"
  ]

  /** The page state. `pending` is the text the reply timer will answer. */
  class ChatSession {
    var messages: seq<Message>
    var inputValue: string
    var isLoading: bool
    var isMounted: bool
    var pending: Option<string>

    /** A reply is awaited exactly while the page shows it is loading. */
    ghost predicate Valid()
      reads this
    {
      isLoading <==> pending.Some?
    }

    constructor ()
      ensures messages == [] && inputValue == "" && !isLoading && !isMounted && pending == None
      ensures Valid()
    {
      messages := [];
      inputValue := "";
      isLoading := false;
      isMounted := false;
      pending := None;
    }

    /** The mount effect: the list becomes the single welcome message. */
    method Mount()
      modifies this`isMounted, this`messages
      ensures isMounted && messages == [Message(1, Text(WelcomeText), Bot)]
    {
      isMounted := true;
      messages := [Message(1, Text(WelcomeText), Bot)];
    }

    /** The quick questions are offered while at most the welcome is shown. */
    predicate ShowsQuickQuestions()
      reads this
    {
      |messages| <= 1
    }

    /** Typing into the input, which is disabled while loading. */
    method Type(text: string)
      modifies this`inputValue
      ensures inputValue == if old(isLoading) then old(inputValue) else text
    {
      if !isLoading {
        inputValue := text;
      }
    }

    /** Clicking a quick question fills the input with it. */
    method PickQuickQuestion(k: nat)
      requires k < |QuickQuestions|
      modifies this`inputValue
      ensures inputValue == if old(ShowsQuickQuestions()) then QuickQuestions[k] else old(inputValue)
    {
      if ShowsQuickQuestions() {
        inputValue := QuickQuestions[k];
      }
    }

    /** `handleSubmit` at time `now`: ignored for blank input or while loading. */
    method Submit(now: int)
      requires Valid()
      modifies this`messages, this`inputValue, this`isLoading, this`pending
      ensures Trim(old(inputValue)) == [] || old(isLoading) ==>
        messages == old(messages) && inputValue == old(inputValue)
        && isLoading == old(isLoading) && pending == old(pending)
      ensures Trim(old(inputValue)) != [] && !old(isLoading) ==>
        messages == old(messages) + [Message(now, Text(old(inputValue)), User)]
        && inputValue == "" && isLoading && pending == Some(old(inputValue))
      ensures Valid()
    {
      if Trim(inputValue) == [] || isLoading {
        return;
      }
      var userMessage := Message(now, Text(inputValue), User);
      messages := messages + [userMessage];
      pending := Some(inputValue);
      inputValue := "";
      isLoading := true;
    }

    /** The reply timer firing at time `now`: the answer to the submitted text. */
    method ReplyTimerFires(now: int)
      requires Valid() && pending.Some?
      modifies this`messages, this`isLoading, this`pending
      ensures messages == old(messages) + [Message(now + 1, Generated(GenerateResponse(old(pending.value))), Bot)]
      ensures !isLoading && pending == None
      ensures Valid()
    {
      var botResponse := Message(now + 1, Generated(GenerateResponse(pending.value)), Bot);
      messages := messages + [botResponse];
      isLoading := false;
      pending := None;
    }
  }
}
