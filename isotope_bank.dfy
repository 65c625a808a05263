/** The fixed question bank of the isotope quiz: eight isotope cards and
    twelve questions about them, with the facts the bank's answers rely on. */
module IsotopeBank {
  import opened Common
  import opened QuizTypes

  const Isotopes: seq<Isotope> := [
    Isotope("U-235", "Uranium-235", "U", 92, 235, 143, 92, 92,
      Some("704 million years"), Some("Alpha decay"),
      Some(["Nuclear fuel", "Nuclear weapons", "Medical isotopes production"]),
      Actinide, "#8B5CF6"),
    Isotope("U-238", "Uranium-238", "U", 92, 238, 146, 92, 92,
      Some("4.5 billion years"), Some("Alpha decay"),
      Some(["Nuclear fuel breeding", "Depleted uranium", "Dating rocks"]),
      Actinide, "#8B5CF6"),
    Isotope("Pu-239", "Plutonium-239", "Pu", 94, 239, 145, 94, 94,
      Some("24,100 years"), Some("Alpha decay"),
      Some(["Nuclear fuel", "Nuclear weapons", "Space missions"]),
      Actinide, "#8B5CF6"),
    Isotope("C-14", "Carbon-14", "C", 6, 14, 8, 6, 6,
      Some("5,730 years"), Some("Beta decay"),
      Some(["Radiocarbon dating", "Medical tracers", "Archaeological dating"]),
      Nonmetal, "#10B981"),
    Isotope("I-131", "Iodine-131", "I", 53, 131, 78, 53, 53,
      Some("8.02 days"), Some("Beta decay"),
      Some(["Thyroid treatment", "Medical imaging", "Cancer therapy"]),
      Nonmetal, "#10B981"),
    Isotope("Tc-99m", "Technetium-99m", "Tc", 43, 99, 56, 43, 43,
      Some("6.01 hours"), Some("Gamma decay"),
      Some(["Medical imaging", "Nuclear medicine", "SPECT scans"]),
      TransitionMetal, "#F59E0B"),
    Isotope("Co-60", "Cobalt-60", "Co", 27, 60, 33, 27, 27,
      Some("5.27 years"), Some("Beta decay"),
      Some(["Cancer therapy", "Food irradiation", "Industrial radiography"]),
      TransitionMetal, "#F59E0B"),
    Isotope("Ra-226", "Radium-226", "Ra", 88, 226, 138, 88, 88,
      Some("1,600 years"), Some("Alpha decay"),
      Some(["Historical medical treatments", "Neutron sources", "Research"]),
      Actinide, "#8B5CF6")
  ]

  const Questions: seq<Question> := [
    Question(1, MultipleChoice,
      "Which element symbol represents Uranium in the periodic table?",
      ["U", "Ur", "Un", "Ua"], 0,
      "Uranium is represented by the symbol \"U\" in the periodic table. It has atomic number 92 and is an actinide element.",
      Isotopes[0], Easy),
    Question(2, Identification,
      "Which isotope is shown in the periodic table card and atomic diagram?",
      ["Uranium-235", "Uranium-238", "Plutonium-239", "Carbon-14"], 1,
      "Uranium-238 has 92 protons and 146 neutrons. It is the most common isotope of uranium, making up about 99.3% of natural uranium.",
      Isotopes[1], Medium),
    Question(3, Properties,
      "What is the half-life of Carbon-14?",
      ["5,730 years", "704 million years", "24,100 years", "8.02 days"], 0,
      "Carbon-14 has a half-life of 5,730 years, making it perfect for dating organic materials up to about 50,000 years old.",
      Isotopes[3], Easy),
    Question(4, MultipleChoice,
      "Which element has the symbol \"Tc\" in the periodic table?",
      ["Titanium", "Technetium", "Tellurium", "Thallium"], 1,
      "Technetium (Tc) is a transition metal with atomic number 43. It is the first artificially produced element.",
      Isotopes[5], Medium),
    Question(5, MultipleChoice,
      "Which decay type does Plutonium-239 undergo?",
      ["Beta decay", "Gamma decay", "Alpha decay", "Positron emission"], 2,
      "Plutonium-239 undergoes alpha decay, emitting an alpha particle (helium nucleus) and transforming into Uranium-235.",
      Isotopes[2], Medium),
    Question(6, Properties,
      "What category does Cobalt-60 belong to in the periodic table?",
      ["Actinide", "Nonmetal", "Transition metal", "Metalloid"], 2,
      "Cobalt-60 is a transition metal. Transition metals are found in the d-block of the periodic table and have partially filled d orbitals.",
      Isotopes[6], Medium),
    Question(7, Properties,
      "How many neutrons does Iodine-131 have?",
      ["53", "78", "131", "184"], 1,
      "Iodine-131 has 78 neutrons (mass number 131 - atomic number 53 = 78 neutrons).",
      Isotopes[4], Easy),
    Question(8, MultipleChoice,
      "Which isotope is commonly used in medical imaging?",
      ["Uranium-238", "Plutonium-239", "Technetium-99m", "Radium-226"], 2,
      "Technetium-99m is the most widely used medical radioisotope, ideal for imaging due to its short half-life and gamma emission.",
      Isotopes[5], Medium),
    Question(9, Properties,
      "Which element has the highest atomic number among these isotopes?",
      ["Uranium-235", "Plutonium-239", "Radium-226", "Cobalt-60"], 1,
      "Plutonium-239 has the highest atomic number at 94. Atomic number represents the number of protons in the nucleus.",
      Isotopes[2], Hard),
    Question(10, Identification,
      "Which isotope with symbol \"Ra\" was historically used in medical treatments?",
      ["Radium-226", "Radon-222", "Rubidium-87", "Rhenium-188"], 0,
      "Radium-226 (Ra) was historically used in medical treatments before its dangers were fully understood. It is highly radioactive with a 1,600-year half-life.",
      Isotopes[7], Medium),
    Question(11, MultipleChoice,
      "Which category do most radioactive isotopes used in nuclear fuel belong to?",
      ["Nonmetals", "Transition metals", "Actinides", "Metalloids"], 2,
      "Most nuclear fuel isotopes are actinides, including uranium and plutonium. Actinides are heavy elements with atomic numbers 89-103.",
      Isotopes[7], Hard),
    Question(12, Properties,
      "What is the mass number of Carbon-14?",
      ["6", "8", "14", "20"], 2,
      "The mass number of Carbon-14 is 14, which represents the total number of protons and neutrons in the nucleus (6 protons + 8 neutrons = 14).",
      Isotopes[3], Medium)
  ]

  /** Nucleon bookkeeping of a card: A = Z + N, and a neutral atom. */
  predicate WellFormedIsotope(iso: Isotope) {
    iso.massNumber == iso.protons + iso.neutrons
    && iso.protons == iso.atomicNumber == iso.electrons
    && iso.atomicNumber > 0 && iso.neutrons >= 0
  }

  /** Four options, and the answer key indexes one of them. */
  predicate WellFormedQuestion(q: Question) {
    |q.options| == 4 && 0 <= q.correctAnswer < |q.options|
  }

  lemma {:induction false} IsotopesWellFormed()
    ensures |Isotopes| == 8
    ensures forall i :: 0 <= i < |Isotopes| ==> WellFormedIsotope(Isotopes[i])
  {
  }

  lemma {:induction false} QuestionsWellFormed()
    ensures |Questions| == 12
    ensures forall i :: 0 <= i < |Questions| ==> WellFormedQuestion(Questions[i])
  {
  }

  /** Ids run 1..12 in order, so they are distinct and ascending. */
  lemma {:induction false} QuestionIds()
    ensures |Questions| == 12
    ensures forall i :: 0 <= i < |Questions| ==> Questions[i].id == i + 1
    ensures forall i, j :: 0 <= i < j < |Questions| ==> Questions[i].id < Questions[j].id
  {
  }

  lemma {:induction false} QuestionIsotopesInBank()
    ensures forall i :: 0 <= i < |Questions| ==> Questions[i].isotope in Isotopes
  {
  }

  /** The keyed option of question `i`. */
  function KeyedOption(i: nat): string
    requires i < |Questions|
  {
    QuestionsWellFormed();
    Questions[i].options[Questions[i].correctAnswer]
  }

  /** Question 7: the keyed "78" is Iodine-131's neutron count, which is
      its mass number minus its atomic number, as its explanation says. */
  lemma {:induction false} NeutronQuestionAgreesWithCard()
    ensures Questions[6].isotope == Isotopes[4] && Isotopes[4].name == "Iodine-131"
    ensures KeyedOption(6) == NatToString(Isotopes[4].neutrons)
    ensures Isotopes[4].neutrons == Isotopes[4].massNumber - Isotopes[4].atomicNumber
  {
    assert NatToString(78) == NatToString(7) + [DigitChar(8)];
  }

  /** Question 12: the keyed "14" is Carbon-14's mass number, 6 protons plus 8 neutrons. */
  lemma {:induction false} MassQuestionAgreesWithCard()
    ensures Questions[11].isotope == Isotopes[3] && Isotopes[3].name == "Carbon-14"
    ensures KeyedOption(11) == NatToString(Isotopes[3].massNumber)
    ensures Isotopes[3].massNumber == Isotopes[3].protons + Isotopes[3].neutrons == 6 + 8
  {
    assert NatToString(14) == NatToString(1) + [DigitChar(4)];
  }

  /** Further keyed options read straight off the question's own card. */
  lemma {:induction false} KeyedOptionsAgreeWithCards()
    ensures KeyedOption(0) == Questions[0].isotope.elementSymbol
    ensures KeyedOption(1) == Questions[1].isotope.name
    ensures Some(KeyedOption(2)) == Questions[2].isotope.halfLife
    ensures Some(KeyedOption(4)) == Questions[4].isotope.decayType
    ensures KeyedOption(7) == Questions[7].isotope.name
    ensures KeyedOption(9) == Questions[9].isotope.name
  {
  }

  /** Question 9: the keyed Plutonium-239 has the largest atomic number of the cards. */
  lemma {:induction false} HighestAtomicNumber()
    ensures KeyedOption(8) == Isotopes[2].name
    ensures forall i :: 0 <= i < |Isotopes| ==> Isotopes[i].atomicNumber <= Isotopes[2].atomicNumber
  {
  }
}
