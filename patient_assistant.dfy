/** The AI diagnostic panel on a patient's profile: a chat whose replies are
    canned templates about that patient, chosen by keywords of the message. */
module PatientAssistant {
  import opened Text
  import KeywordRules
  import Chat

  /** The canned answers of the panel; their prose is not modelled. */
  datatype Template =
    | Greeting
    | CardiovascularRisk
    | HeadacheCauses
    | FamilyHistory
    | MedicationAlternatives
    | FollowUpTests
    | Observations

  /** An assistant entry: a template with the patient's name filled in. */
  datatype Reply = Reply(template: Template, patientName: string)

  /** The reply selector: the lowercased message is tested against the
      keywords in a fixed order, and the first test that passes decides. It never
      picks the greeting. */
  function Classify(message: string): (r: Template)
    ensures r != Greeting
  {
    var text := ToLower(message);
    if Includes(text, "risk") && Includes(text, "cardiovascular") then CardiovascularRisk
    else if Includes(text, "headaches") then HeadacheCauses
    else if Includes(text, "family history") || Includes(text, "genetic") then FamilyHistory
    else if Includes(text, "medication") || Includes(text, "alternative") then MedicationAlternatives
    else if Includes(text, "test") || Includes(text, "follow-up") then FollowUpTests
    else Observations
  }

  /** The reply to `message` in the panel of the patient called `patientName`. */
  function Answer(patientName: string, message: string): (r: Reply)
    ensures r.patientName == patientName && r.template != Greeting
  {
    Reply(Classify(message), patientName)
  }

  /** Mounting the panel for a patient: a new chat whose log holds only the
      greeting for that patient, with an empty text box, the suggestions
      shown and nothing waiting for a reply. */
  method Open(patientName: string) returns (s: Chat.Session<Reply>)
    ensures fresh(s) && s.Valid()
    ensures s.log == [Chat.AssistantMessage(Reply(Greeting, patientName))]
    ensures forall m :: s.respond(m) == Answer(patientName, m)
    ensures s.input == "" && s.showSuggestions && !s.analyzing && s.pending == []
  {
    s := new Chat.Session(Reply(Greeting, patientName), m => Answer(patientName, m));
  }

  /** The same selector written as an ordered rule table. */
  const Rules: seq<KeywordRules.Rule<Template>> := [
    KeywordRules.Rule(KeywordRules.AllOf(["risk", "cardiovascular"]), CardiovascularRisk),
    KeywordRules.Rule(KeywordRules.AnyOf(["headaches"]), HeadacheCauses),
    KeywordRules.Rule(KeywordRules.AnyOf(["family history", "genetic"]), FamilyHistory),
    KeywordRules.Rule(KeywordRules.AnyOf(["medication", "alternative"]), MedicationAlternatives),
    KeywordRules.Rule(KeywordRules.AnyOf(["test", "follow-up"]), FollowUpTests)
  ]

  /** The keyword chain on a lowercased text is the first-match reading of
      the table. */
  lemma ChainIsFirstMatch(text: string)
    ensures KeywordRules.Respond(Rules, text, Observations) ==
      if Includes(text, "risk") && Includes(text, "cardiovascular") then CardiovascularRisk
      else if Includes(text, "headaches") then HeadacheCauses
      else if Includes(text, "family history") || Includes(text, "genetic") then FamilyHistory
      else if Includes(text, "medication") || Includes(text, "alternative") then MedicationAlternatives
      else if Includes(text, "test") || Includes(text, "follow-up") then FollowUpTests
      else Observations
  {
    KeywordRules.HoldsTwo(text, "risk", "cardiovascular");
    KeywordRules.HoldsOne(text, "headaches");
    KeywordRules.HoldsTwo(text, "family history", "genetic");
    KeywordRules.HoldsTwo(text, "medication", "alternative");
    KeywordRules.HoldsTwo(text, "test", "follow-up");
    var k := KeywordRules.FirstMatch(Rules, text);
    if KeywordRules.Holds(Rules[0].pattern, text) {
      assert k == 0;
    } else if KeywordRules.Holds(Rules[1].pattern, text) {
      assert k == 1;
    } else if KeywordRules.Holds(Rules[2].pattern, text) {
      assert k == 2;
    } else if KeywordRules.Holds(Rules[3].pattern, text) {
      assert k == 3;
    } else if KeywordRules.Holds(Rules[4].pattern, text) {
      assert k == 4;
    } else {
      assert k == 5;
    }
  }

  /** The rule table answers each template with its own rule and the
      default with none. */
  /** The selector is the first-match reading of the table, with
      `Observations` as the default. */
  lemma ClassifyIsFirstMatch(message: string)
    ensures Classify(message) == KeywordRules.Respond(Rules, ToLower(message), Observations)
  {
    ChainIsFirstMatch(ToLower(message));
  }

  lemma RulesHaveDistinctReplies()
    ensures KeywordRules.DistinctReplies(Rules, Observations)
  {
  }

  /** First match wins: the panel answers with rule `j`'s template iff rule
      `j` matches the lowercased message and no earlier rule does; it falls
      back to the observations template iff no rule matches. */
  lemma ClassifyOrder(message: string, j: nat)
    requires j < |Rules|
    ensures Classify(message) == Rules[j].reply <==>
      KeywordRules.Holds(Rules[j].pattern, ToLower(message)) &&
      forall i :: 0 <= i < j ==> !KeywordRules.Holds(Rules[i].pattern, ToLower(message))
    ensures Classify(message) == Observations <==>
      forall i :: 0 <= i < |Rules| ==> !KeywordRules.Holds(Rules[i].pattern, ToLower(message))
  {
    ClassifyIsFirstMatch(message);
    RulesHaveDistinctReplies();
    KeywordRules.RespondCharacterized(Rules, ToLower(message), Observations, j);
  }

  /** "risk" together with "cardiovascular" always gets the cardiovascular
      risk template, whatever else the message mentions. */
  lemma RiskAndCardiovascularFirst(message: string)
    ensures Occurs("risk", ToLower(message)) && Occurs("cardiovascular", ToLower(message)) ==>
      Classify(message) == CardiovascularRisk
  {
  }

  /** The selector is total: a message with none of the keywords gets the
      observations template, and only such a message does. */
  lemma ObservationsIffNoKeyword(message: string)
    ensures var text := ToLower(message);
      Classify(message) == Observations <==>
        !(Occurs("risk", text) && Occurs("cardiovascular", text)) &&
        !Occurs("headaches", text) && !Occurs("family history", text) && !Occurs("genetic", text) &&
        !Occurs("medication", text) && !Occurs("alternative", text) &&
        !Occurs("test", text) && !Occurs("follow-up", text)
  {
  }

  /** Matching ignores ASCII letter case: upper- or lower-casing the message
      does not change the template, and the reply depends on nothing but the
      lowercased message and the patient's name. */
  lemma ClassifyIgnoresCase(message: string)
    ensures Classify(ToUpper(message)) == Classify(message)
    ensures Classify(ToLower(message)) == Classify(message)
  {
    LowerAbsorbsCase(message);
  }

  lemma AnswerDependsOnLowercase(patientName: string, m1: string, m2: string)
    requires ToLower(m1) == ToLower(m2)
    ensures Answer(patientName, m1) == Answer(patientName, m2)
  {
  }

  /** The five suggested prompts, in display order. Each is written in
      pieces, the keyword that routes it being a piece of its own. */
  const RiskPrompt := "What " + "risk" + (" factors does" + " the patient" + " have for " + "cardiovascular" + " disease?")
  const FollowUpPrompt := "Suggest " + "follow-up" + (" tests for" + " the patient's" + " hypertension")
  const HeadachePrompt := "Identify" + " possible" + " causes for" + " the patient's " + "headaches"
  const MedicationPrompt := "What " + "medication" + (" alternatives" + " could be" + " considered?")
  const FamilyPrompt := "Analyze " + "family history" + (" for genetic" + " patterns")
  const Suggestions: seq<string> := [RiskPrompt, FollowUpPrompt, HeadachePrompt, MedicationPrompt, FamilyPrompt]

  /** The template read off the keywords a message contains. */
  lemma ClassifyByKeywords(message: string)
    ensures var text := ToLower(message);
      Classify(message) ==
        if Occurs("risk", text) && Occurs("cardiovascular", text) then CardiovascularRisk
        else if Occurs("headaches", text) then HeadacheCauses
        else if Occurs("family history", text) || Occurs("genetic", text) then FamilyHistory
        else if Occurs("medication", text) || Occurs("alternative", text) then MedicationAlternatives
        else if Occurs("test", text) || Occurs("follow-up", text) then FollowUpTests
        else Observations
  {
  }

  // The lemmas below each settle one keyword for one prompt: a keyword is
  // found where the prompt spells it out, and is absent when the prompt
  // lacks one of its letters in either case. They share one shape and
  // differ only in the prompt, the keyword and the letter; they are kept
  // apart, one letter and one prompt each, because reasoning about a literal
  // string is costly and grows fast when several letters or prompts meet in
  // one proof.

  lemma RiskPromptRouted()
    ensures Classify(RiskPrompt) == CardiovascularRisk
  {
    var inner := " factors does" + " the patient" + " have for " + "cardiovascular" + " disease?";
    FoundInLower("What ", "risk", inner);
    FoundInLower(" factors does" + " the patient" + " have for ", "cardiovascular", " disease?");
    LowerOfConcat("What " + "risk", inner);
    OccursInConcat(ToLower("What " + "risk"), ToLower(inner), "cardiovascular");
    ClassifyByKeywords(RiskPrompt);
  }

  lemma FollowUpPromptOmitsRisk() ensures !Occurs("risk", ToLower(FollowUpPrompt)) {
    assert Lacks("Suggest ", 'k');
    assert Lacks("follow-up", 'k');
    assert Lacks(" tests for", 'k');
    assert Lacks(" the patient's", 'k');
    assert Lacks(" hypertension", 'k');
    MissingFromLower(FollowUpPrompt, "risk", 'k');
  }
  lemma FollowUpPromptOmitsHeadaches() ensures !Occurs("headaches", ToLower(FollowUpPrompt)) {
    assert Lacks("Suggest ", 'd');
    assert Lacks("follow-up", 'd');
    assert Lacks(" tests for", 'd');
    assert Lacks(" the patient's", 'd');
    assert Lacks(" hypertension", 'd');
    MissingFromLower(FollowUpPrompt, "headaches", 'd');
  }
  lemma FollowUpPromptOmitsFamilyHistory() ensures !Occurs("family history", ToLower(FollowUpPrompt)) {
    assert Lacks("Suggest ", 'm');
    assert Lacks("follow-up", 'm');
    assert Lacks(" tests for", 'm');
    assert Lacks(" the patient's", 'm');
    assert Lacks(" hypertension", 'm');
    MissingFromLower(FollowUpPrompt, "family history", 'm');
  }
  lemma FollowUpPromptOmitsGenetic() ensures !Occurs("genetic", ToLower(FollowUpPrompt)) {
    assert Lacks("Suggest ", 'c');
    assert Lacks("follow-up", 'c');
    assert Lacks(" tests for", 'c');
    assert Lacks(" the patient's", 'c');
    assert Lacks(" hypertension", 'c');
    MissingFromLower(FollowUpPrompt, "genetic", 'c');
  }
  lemma FollowUpPromptOmitsMedication() ensures !Occurs("medication", ToLower(FollowUpPrompt)) {
    assert Lacks("Suggest ", 'm');
    assert Lacks("follow-up", 'm');
    assert Lacks(" tests for", 'm');
    assert Lacks(" the patient's", 'm');
    assert Lacks(" hypertension", 'm');
    MissingFromLower(FollowUpPrompt, "medication", 'm');
  }
  lemma FollowUpPromptOmitsAlternative() ensures !Occurs("alternative", ToLower(FollowUpPrompt)) {
    assert Lacks("Suggest ", 'v');
    assert Lacks("follow-up", 'v');
    assert Lacks(" tests for", 'v');
    assert Lacks(" the patient's", 'v');
    assert Lacks(" hypertension", 'v');
    MissingFromLower(FollowUpPrompt, "alternative", 'v');
  }

  lemma FollowUpPromptRouted()
    ensures Classify(FollowUpPrompt) == FollowUpTests
  {
    FoundInLower("Suggest ", "follow-up", " tests for" + " the patient's" + " hypertension");
    FollowUpPromptOmitsRisk();
    FollowUpPromptOmitsHeadaches();
    FollowUpPromptOmitsFamilyHistory();
    FollowUpPromptOmitsGenetic();
    FollowUpPromptOmitsMedication();
    FollowUpPromptOmitsAlternative();
    ClassifyByKeywords(FollowUpPrompt);
  }

  lemma HeadachePromptOmitsRisk() ensures !Occurs("risk", ToLower(HeadachePrompt)) {
    assert Lacks("Identify", 'k');
    assert Lacks(" possible", 'k');
    assert Lacks(" causes for", 'k');
    assert Lacks(" the patient's ", 'k');
    assert Lacks("headaches", 'k');
    MissingFromLower(HeadachePrompt, "risk", 'k');
  }

  lemma HeadachePromptRouted()
    ensures Classify(HeadachePrompt) == HeadacheCauses
  {
    FoundInLowerAtEnd("Identify" + " possible" + " causes for" + " the patient's ", "headaches");
    HeadachePromptOmitsRisk();
    ClassifyByKeywords(HeadachePrompt);
  }

  lemma MedicationPromptOmitsRisk() ensures !Occurs("risk", ToLower(MedicationPrompt)) {
    assert Lacks("What ", 'k');
    assert Lacks("medication", 'k');
    assert Lacks(" alternatives", 'k');
    assert Lacks(" could be", 'k');
    assert Lacks(" considered?", 'k');
    MissingFromLower(MedicationPrompt, "risk", 'k');
  }
  lemma MedicationPromptOmitsFamilyHistory() ensures !Occurs("family history", ToLower(MedicationPrompt)) {
    assert Lacks("What ", 'y');
    assert Lacks("medication", 'y');
    assert Lacks(" alternatives", 'y');
    assert Lacks(" could be", 'y');
    assert Lacks(" considered?", 'y');
    MissingFromLower(MedicationPrompt, "family history", 'y');
  }
  lemma MedicationPromptOmitsGenetic() ensures !Occurs("genetic", ToLower(MedicationPrompt)) {
    assert Lacks("What ", 'g');
    assert Lacks("medication", 'g');
    assert Lacks(" alternatives", 'g');
    assert Lacks(" could be", 'g');
    assert Lacks(" considered?", 'g');
    MissingFromLower(MedicationPrompt, "genetic", 'g');
  }

  lemma MedicationTailLacksH()
    ensures 'h' !in " alternatives" + " could be" + " considered?"
    ensures UpperChar('h') !in " alternatives" + " could be" + " considered?"
  {
  }

  lemma NoHEInWhat()
    ensures ToLower("What ") == "what " && !HasPair("what ", 'h', 'e')
  {
    forall j | 0 <= j < 4 ensures !PairAt("what ", 'h', 'e', j) {}
  }

  /** "headaches" has no letter the medication prompt lacks; but its 'h' is
      always followed by 'e', while the prompt's only 'h' (in "What") is
      followed by 'a'. */
  lemma MedicationPromptOmitsHeadaches()
    ensures !Occurs("headaches", ToLower(MedicationPrompt))
  {
    var pre, kw, post := "What ", "medication", " alternatives" + " could be" + " considered?";
    LowerOfConcat(pre + kw, post);
    LowerOfConcat(pre, kw);
    NoHEInWhat();
    assert ToLower(kw) == kw && 'h' !in kw;
    PairInConcat(ToLower(pre) + kw, ToLower(post), 'h', 'e');
    PairInConcat(ToLower(pre), kw, 'h', 'e');
    MedicationTailLacksH();
    AbsentFromLower(post, 'h');
    PairNeedsChar(ToLower(post), 'h', 'e');
    PairNeedsChar(kw, 'h', 'e');
    PairOfOccurrence(ToLower(MedicationPrompt), "headaches");
  }

  lemma MedicationPromptRouted()
    ensures Classify(MedicationPrompt) == MedicationAlternatives
  {
    FoundInLower("What ", "medication", " alternatives" + " could be" + " considered?");
    MedicationPromptOmitsRisk();
    MedicationPromptOmitsHeadaches();
    MedicationPromptOmitsFamilyHistory();
    MedicationPromptOmitsGenetic();
    ClassifyByKeywords(MedicationPrompt);
  }

  lemma FamilyPromptOmitsRisk() ensures !Occurs("risk", ToLower(FamilyPrompt)) {
    assert Lacks("Analyze ", 'k');
    assert Lacks("family history", 'k');
    assert Lacks(" for genetic", 'k');
    assert Lacks(" patterns", 'k');
    MissingFromLower(FamilyPrompt, "risk", 'k');
  }
  lemma FamilyPromptOmitsHeadaches() ensures !Occurs("headaches", ToLower(FamilyPrompt)) {
    assert Lacks("Analyze ", 'd');
    assert Lacks("family history", 'd');
    assert Lacks(" for genetic", 'd');
    assert Lacks(" patterns", 'd');
    MissingFromLower(FamilyPrompt, "headaches", 'd');
  }

  lemma FamilyPromptRouted()
    ensures Classify(FamilyPrompt) == FamilyHistory
  {
    FoundInLower("Analyze ", "family history", " for genetic" + " patterns");
    FamilyPromptOmitsRisk();
    FamilyPromptOmitsHeadaches();
    ClassifyByKeywords(FamilyPrompt);
  }

  /** Each suggested prompt is routed to its own template, and none to the
      default. */
  lemma SuggestionsRouted()
    ensures |Suggestions| == 5
    ensures forall i :: 0 <= i < |Suggestions| ==> Classify(Suggestions[i]) != Observations
    ensures forall i, j :: 0 <= i < j < |Suggestions| ==> Classify(Suggestions[i]) != Classify(Suggestions[j])
  {
    var routes := [CardiovascularRisk, FollowUpTests, HeadacheCauses, MedicationAlternatives, FamilyHistory];
    forall i | 0 <= i < |Suggestions| ensures Classify(Suggestions[i]) == routes[i] {
      if i == 0 {
        RiskPromptRouted();
      } else if i == 1 {
        FollowUpPromptRouted();
      } else if i == 2 {
        HeadachePromptRouted();
      } else if i == 3 {
        MedicationPromptRouted();
      } else {
        FamilyPromptRouted();
      }
    }
  }
}
