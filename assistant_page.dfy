/** The standalone AI assistant page: a chat that opens with a greeting and
    answers with one of a few canned replies chosen by keywords of the
    message. */
module AssistantPage {
  import opened Text
  import KeywordRules
  import Chat

  /** The canned answers of the page; their prose is not modelled. */
  datatype Reply =
    | Greeting
    | ChestPainWorkup
    | DiabetesTreatments
    | LabReportReview
    | HypertensionMedications
    | CardiovascularRiskFactors
    | GeneralHelp

  /** The reply selector: the lowercased message is tested against one
      keyword after another, and the first one found decides. It never
      answers with the greeting. */
  function Classify(message: string): (r: Reply)
    ensures r != Greeting
  {
    var text := ToLower(message);
    if Includes(text, "chest pain") then ChestPainWorkup
    else if Includes(text, "diabetes") then DiabetesTreatments
    else if Includes(text, "lab report") then LabReportReview
    else if Includes(text, "hypertension") then HypertensionMedications
    else if Includes(text, "cardiovascular") then CardiovascularRiskFactors
    else GeneralHelp
  }

  /** Mounting the page: a new chat whose log holds only the greeting, with
      an empty text box, the suggestions shown and nothing waiting. */
  method Open() returns (s: Chat.Session<Reply>)
    ensures fresh(s) && s.Valid()
    ensures s.log == [Chat.AssistantMessage(Greeting)]
    ensures forall m :: s.respond(m) == Classify(m)
    ensures s.input == "" && s.showSuggestions && !s.analyzing && s.pending == []
  {
    s := new Chat.Session(Greeting, Classify);
  }

  /** The same selector written as an ordered rule table. */
  const Rules: seq<KeywordRules.Rule<Reply>> := [
    KeywordRules.Rule(KeywordRules.AnyOf(["chest pain"]), ChestPainWorkup),
    KeywordRules.Rule(KeywordRules.AnyOf(["diabetes"]), DiabetesTreatments),
    KeywordRules.Rule(KeywordRules.AnyOf(["lab report"]), LabReportReview),
    KeywordRules.Rule(KeywordRules.AnyOf(["hypertension"]), HypertensionMedications),
    KeywordRules.Rule(KeywordRules.AnyOf(["cardiovascular"]), CardiovascularRiskFactors)
  ]

  /** The keyword chain on a lowercased text is the first-match reading of
      the table. */
  lemma ChainIsFirstMatch(text: string)
    ensures KeywordRules.Respond(Rules, text, GeneralHelp) ==
      if Includes(text, "chest pain") then ChestPainWorkup
      else if Includes(text, "diabetes") then DiabetesTreatments
      else if Includes(text, "lab report") then LabReportReview
      else if Includes(text, "hypertension") then HypertensionMedications
      else if Includes(text, "cardiovascular") then CardiovascularRiskFactors
      else GeneralHelp
  {
    KeywordRules.HoldsOne(text, "chest pain");
    KeywordRules.HoldsOne(text, "diabetes");
    KeywordRules.HoldsOne(text, "lab report");
    KeywordRules.HoldsOne(text, "hypertension");
    KeywordRules.HoldsOne(text, "cardiovascular");
    var k := KeywordRules.FirstMatch(Rules, text);
    if KeywordRules.Holds(Rules[0].pattern, text) {
      assert k == 0;
    } else if KeywordRules.Holds(Rules[1].pattern, text) {
      assert k == 1;
    } else if KeywordRules.Holds(Rules[2].pattern, text) {
      assert k == 2;
    } else if KeywordRules.Holds(Rules[3].pattern, text) {
      assert k == 3;
    } else if KeywordRules.Holds(Rules[4].pattern, text) {
      assert k == 4;
    } else {
      assert k == 5;
    }
  }

  /** The selector is the first-match reading of the table, with
      `GeneralHelp` as the default. */
  lemma ClassifyIsFirstMatch(message: string)
    ensures Classify(message) == KeywordRules.Respond(Rules, ToLower(message), GeneralHelp)
  {
    ChainIsFirstMatch(ToLower(message));
  }

  lemma RulesHaveDistinctReplies()
    ensures KeywordRules.DistinctReplies(Rules, GeneralHelp)
  {
  }

  /** First match wins: the page answers with rule `j`'s reply iff rule `j`
      matches the lowercased message and no earlier rule does; it falls back
      to general help iff no rule matches. */
  lemma ClassifyOrder(message: string, j: nat)
    requires j < |Rules|
    ensures Classify(message) == Rules[j].reply <==>
      KeywordRules.Holds(Rules[j].pattern, ToLower(message)) &&
      forall i :: 0 <= i < j ==> !KeywordRules.Holds(Rules[i].pattern, ToLower(message))
    ensures Classify(message) == GeneralHelp <==>
      forall i :: 0 <= i < |Rules| ==> !KeywordRules.Holds(Rules[i].pattern, ToLower(message))
  {
    ClassifyIsFirstMatch(message);
    RulesHaveDistinctReplies();
    KeywordRules.RespondCharacterized(Rules, ToLower(message), GeneralHelp, j);
  }

  /** The reply read off the keywords a message contains. */
  lemma ClassifyByKeywords(message: string)
    ensures var text := ToLower(message);
      Classify(message) ==
        if Occurs("chest pain", text) then ChestPainWorkup
        else if Occurs("diabetes", text) then DiabetesTreatments
        else if Occurs("lab report", text) then LabReportReview
        else if Occurs("hypertension", text) then HypertensionMedications
        else if Occurs("cardiovascular", text) then CardiovascularRiskFactors
        else GeneralHelp
  {
  }

  /** A message that mentions both diabetes and hypertension gets the
      diabetes reply, since that rule comes first. */
  lemma DiabetesBeforeHypertension(message: string)
    ensures Occurs("diabetes", ToLower(message)) && Occurs("hypertension", ToLower(message)) &&
            !Occurs("chest pain", ToLower(message)) ==>
      Classify(message) == DiabetesTreatments
  {
  }

  /** Matching ignores ASCII letter case. */
  lemma ClassifyIgnoresCase(message: string)
    ensures Classify(ToUpper(message)) == Classify(message)
    ensures Classify(ToLower(message)) == Classify(message)
  {
    LowerAbsorbsCase(message);
  }

  /** The five suggested prompts, in display order. Each is written in
      pieces, the keyword that routes it being a piece of its own. */
  const ChestPainPrompt := "Help me " + "diagnose a " + "patient with " + "chest pain"
  const DiabetesPrompt := "What are the" + " latest treatment" + " options for" + " type 2 " + "diabetes" + "?"
  const LabReportPrompt := "Analyze this " + "lab report" + (" for" + " abnormalities")
  const HypertensionPrompt := "Suggest " + "alternative " + "medications for " + "hypertension"
  const CardiovascularPrompt := "What are the " + "risk factors for " + "cardiovascular" + " disease?"
  const Suggestions: seq<string> :=
    [ChestPainPrompt, DiabetesPrompt, LabReportPrompt, HypertensionPrompt, CardiovascularPrompt]

  // The lemmas below each settle one keyword for one prompt: a keyword is
  // found where the prompt spells it out, and is absent when the prompt
  // lacks one of its letters in either case. They share one shape and
  // differ only in the prompt, the keyword and the letter; they are kept
  // apart, one letter and one prompt each, because reasoning about a literal
  // string is costly and grows fast when several letters or prompts meet in
  // one proof.

  lemma ChestPainPromptRouted()
    ensures Classify(ChestPainPrompt) == ChestPainWorkup
  {
    FoundInLowerAtEnd("Help me " + "diagnose a " + "patient with ", "chest pain");
    ClassifyByKeywords(ChestPainPrompt);
  }

  lemma DiabetesPromptOmitsChestPain() ensures !Occurs("chest pain", ToLower(DiabetesPrompt)) {
    assert Lacks("What are the", 'c');
    assert Lacks(" latest treatment", 'c');
    assert Lacks(" options for", 'c');
    assert Lacks(" type 2 ", 'c');
    assert Lacks("diabetes", 'c');
    assert Lacks("?", 'c');
    MissingFromLower(DiabetesPrompt, "chest pain", 'c');
  }

  lemma DiabetesPromptRouted()
    ensures Classify(DiabetesPrompt) == DiabetesTreatments
  {
    FoundInLower("What are the" + " latest treatment" + " options for" + " type 2 ", "diabetes", "?");
    DiabetesPromptOmitsChestPain();
    ClassifyByKeywords(DiabetesPrompt);
  }

  lemma LabReportPromptOmitsChestPain() ensures !Occurs("chest pain", ToLower(LabReportPrompt)) {
    assert Lacks("Analyze this ", 'c');
    assert Lacks("lab report", 'c');
    assert Lacks(" for", 'c');
    assert Lacks(" abnormalities", 'c');
    MissingFromLower(LabReportPrompt, "chest pain", 'c');
  }

  lemma LabReportPromptOmitsDiabetes() ensures !Occurs("diabetes", ToLower(LabReportPrompt)) {
    assert Lacks("Analyze this ", 'd');
    assert Lacks("lab report", 'd');
    assert Lacks(" for", 'd');
    assert Lacks(" abnormalities", 'd');
    MissingFromLower(LabReportPrompt, "diabetes", 'd');
  }

  lemma LabReportPromptRouted()
    ensures Classify(LabReportPrompt) == LabReportReview
  {
    FoundInLower("Analyze this ", "lab report", " for" + " abnormalities");
    LabReportPromptOmitsChestPain();
    LabReportPromptOmitsDiabetes();
    ClassifyByKeywords(LabReportPrompt);
  }

  lemma HypertensionPromptOmitsDiabetes() ensures !Occurs("diabetes", ToLower(HypertensionPrompt)) {
    assert Lacks("Suggest ", 'b');
    assert Lacks("alternative ", 'b');
    assert Lacks("medications for ", 'b');
    assert Lacks("hypertension", 'b');
    MissingFromLower(HypertensionPrompt, "diabetes", 'b');
  }

  lemma HypertensionPromptOmitsLabReport() ensures !Occurs("lab report", ToLower(HypertensionPrompt)) {
    assert Lacks("Suggest ", 'b');
    assert Lacks("alternative ", 'b');
    assert Lacks("medications for ", 'b');
    assert Lacks("hypertension", 'b');
    MissingFromLower(HypertensionPrompt, "lab report", 'b');
  }

  lemma HypertensionHeadLacksC()
    ensures 'c' !in "Suggest " + "alternative " && UpperChar('c') !in "Suggest " + "alternative "
  {
  }

  lemma NoCHInMedications()
    ensures ToLower("medications for ") == "medications for "
    ensures !HasPair("medications for ", 'c', 'h')
  {
    forall j | 0 <= j < 15 ensures !PairAt("medications for ", 'c', 'h', j) {}
  }

  /** "chest pain" has no letter the hypertension prompt lacks; but its 'c'
      is always followed by 'h', while the prompt's only 'c' (in
      "medications") is followed by 'a'. */
  lemma HypertensionPromptOmitsChestPain()
    ensures !Occurs("chest pain", ToLower(HypertensionPrompt))
  {
    var head, mid, kw := "Suggest " + "alternative ", "medications for ", "hypertension";
    LowerOfConcat(head + mid, kw);
    LowerOfConcat(head, mid);
    HypertensionHeadLacksC();
    AbsentFromLower(head, 'c');
    NoCHInMedications();
    assert ToLower(kw) == kw && 'c' !in kw;
    PairInConcat(ToLower(head) + mid, kw, 'c', 'h');
    PairInConcat(ToLower(head), mid, 'c', 'h');
    PairNeedsChar(ToLower(head), 'c', 'h');
    PairNeedsChar(kw, 'c', 'h');
    PairOfOccurrence(ToLower(HypertensionPrompt), "chest pain");
  }

  lemma HypertensionPromptRouted()
    ensures Classify(HypertensionPrompt) == HypertensionMedications
  {
    FoundInLowerAtEnd("Suggest " + "alternative " + "medications for ", "hypertension");
    HypertensionPromptOmitsChestPain();
    HypertensionPromptOmitsDiabetes();
    HypertensionPromptOmitsLabReport();
    ClassifyByKeywords(HypertensionPrompt);
  }

  lemma CardiovascularPromptOmitsChestPain() ensures !Occurs("chest pain", ToLower(CardiovascularPrompt)) {
    assert Lacks("What are the ", 'p');
    assert Lacks("risk factors for ", 'p');
    assert Lacks("cardiovascular", 'p');
    assert Lacks(" disease?", 'p');
    MissingFromLower(CardiovascularPrompt, "chest pain", 'p');
  }

  lemma CardiovascularPromptOmitsDiabetes() ensures !Occurs("diabetes", ToLower(CardiovascularPrompt)) {
    assert Lacks("What are the ", 'b');
    assert Lacks("risk factors for ", 'b');
    assert Lacks("cardiovascular", 'b');
    assert Lacks(" disease?", 'b');
    MissingFromLower(CardiovascularPrompt, "diabetes", 'b');
  }

  lemma CardiovascularPromptOmitsLabReport() ensures !Occurs("lab report", ToLower(CardiovascularPrompt)) {
    assert Lacks("What are the ", 'b');
    assert Lacks("risk factors for ", 'b');
    assert Lacks("cardiovascular", 'b');
    assert Lacks(" disease?", 'b');
    MissingFromLower(CardiovascularPrompt, "lab report", 'b');
  }

  lemma CardiovascularPromptOmitsHypertension() ensures !Occurs("hypertension", ToLower(CardiovascularPrompt)) {
    assert Lacks("What are the ", 'y');
    assert Lacks("risk factors for ", 'y');
    assert Lacks("cardiovascular", 'y');
    assert Lacks(" disease?", 'y');
    MissingFromLower(CardiovascularPrompt, "hypertension", 'y');
  }

  lemma CardiovascularPromptRouted()
    ensures Classify(CardiovascularPrompt) == CardiovascularRiskFactors
  {
    FoundInLower("What are the " + "risk factors for ", "cardiovascular", " disease?");
    CardiovascularPromptOmitsChestPain();
    CardiovascularPromptOmitsDiabetes();
    CardiovascularPromptOmitsLabReport();
    CardiovascularPromptOmitsHypertension();
    ClassifyByKeywords(CardiovascularPrompt);
  }

  /** Each suggested prompt gets its own reply, and none gets the default. */
  lemma SuggestionsRouted()
    ensures |Suggestions| == 5
    ensures forall i :: 0 <= i < |Suggestions| ==> Classify(Suggestions[i]) != GeneralHelp
    ensures forall i, j :: 0 <= i < j < |Suggestions| ==> Classify(Suggestions[i]) != Classify(Suggestions[j])
  {
    var routes := [ChestPainWorkup, DiabetesTreatments, LabReportReview, HypertensionMedications,
                   CardiovascularRiskFactors];
    forall i | 0 <= i < |Suggestions| ensures Classify(Suggestions[i]) == routes[i] {
      if i == 0 {
        ChestPainPromptRouted();
      } else if i == 1 {
        DiabetesPromptRouted();
      } else if i == 2 {
        LabReportPromptRouted();
      } else if i == 3 {
        HypertensionPromptRouted();
      } else {
        CardiovascularPromptRouted();
      }
    }
  }
}
