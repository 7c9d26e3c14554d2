/** The patient-profile page: which patient a route shows, the "Latest
    Vitals" card, the insurance badges and button, the prescriptions' end
    dates, and the AI assistant panel's visibility. */
module PatientProfile {

  datatype Option<T> = None | Some(value: T)

  datatype VitalStatus = Normal | Elevated | Low

  datatype Vital = Vital(date: string, kind: string, value: string, unit: string, status: VitalStatus)

  datatype Patient = Patient(id: string, name: string, condition: string, insuranceProvider: string,
                             insuranceNumber: string, lifeInsurance: bool, vitals: seq<Vital>)

  /** The position of the first patient whose id is the route's, or
      `|patients|` when there is none (or no route id at all). */
  function FindIndex(patients: seq<Patient>, routeId: Option<string>): (k: nat)
    ensures k <= |patients|
    ensures k < |patients| ==> routeId == Some(patients[k].id)
    ensures forall i :: 0 <= i < k ==> routeId != Some(patients[i].id)
  {
    if patients == [] then 0
    else if routeId == Some(patients[0].id) then 0
    else 1 + FindIndex(patients[1..], routeId)
  }

  /** `patients.find(p => p.id === patientId) || patients[0]`: the first
      patient with the route's id, falling back to the first patient. */
  function Lookup(patients: seq<Patient>, routeId: Option<string>): (p: Patient)
    requires patients != []
    ensures p in patients
    ensures (exists i :: 0 <= i < |patients| && routeId == Some(patients[i].id)) ==>
      routeId == Some(p.id) &&
      exists k :: 0 <= k < |patients| && p == patients[k] &&
                  forall i :: 0 <= i < k ==> routeId != Some(patients[i].id)
    ensures (forall i :: 0 <= i < |patients| ==> routeId != Some(patients[i].id)) ==> p == patients[0]
  {
    var k := FindIndex(patients, routeId);
    if k < |patients| then patients[k] else patients[0]
  }

  /** `vitals.slice(0, 3)`: the first three readings, or all of them when
      there are fewer, in their order. */
  function LatestVitals(vitals: seq<Vital>): (r: seq<Vital>)
    ensures |r| == if |vitals| < 3 then |vitals| else 3
    ensures r == vitals[..|r|]
  {
    if |vitals| < 3 then vitals else vitals[..3]
  }

  datatype Badge = ConditionBadge(condition: string) | WelliInsured

  /** The badges under the patient's name: the condition, then "Welli
      Insured" for patients insured exactly by "Welli Health". */
  function Badges(p: Patient): (r: seq<Badge>)
    ensures 1 <= |r| <= 2 && r[0] == ConditionBadge(p.condition)
    ensures WelliInsured in r <==> p.insuranceProvider == "Welli Health"
  {
    [ConditionBadge(p.condition)] + if p.insuranceProvider == "Welli Health" then [WelliInsured] else []
  }

  /** One line of the insurance card. */
  datatype InsuranceLine = ProviderLine(provider: string) | PolicyLine(number: string) | RecommendButton

  /** The insurance card: the provider, the policy number and, for a
      patient without life insurance, the "Recommend Life Insurance"
      button below them. */
  function InsuranceCard(p: Patient): (r: seq<InsuranceLine>)
    ensures 2 <= |r| <= 3
    ensures r[0] == ProviderLine(p.insuranceProvider) && r[1] == PolicyLine(p.insuranceNumber)
    ensures RecommendButton !in r[..2]
  {
    [ProviderLine(p.insuranceProvider), PolicyLine(p.insuranceNumber)] +
    if !p.lifeInsurance then [RecommendButton] else []
  }

  /** Whether the card offers life insurance: exactly to the patients who
      have none, and always as its last line. */
  predicate RecommendsLifeInsurance(p: Patient): (r: bool)
    ensures r <==> !p.lifeInsurance
    ensures r <==> |InsuranceCard(p)| == 3 && InsuranceCard(p)[2] == RecommendButton
  {
    RecommendButton in InsuranceCard(p)
  }

  /** The end of a prescription as shown: "Ongoing", or "Until: " and the
      end date. */
  function EndDateText(endDate: string): (r: string)
    ensures endDate == "Ongoing" ==> r == "Ongoing"
    ensures endDate != "Ongoing" ==> r == "Until: " + endDate
  {
    if endDate == "Ongoing" then "Ongoing" else "Until: " + endDate
  }

  /** Reads the end date back off its text. */
  function EndDateOfText(text: string): string {
    if text == "Ongoing" then text
    else if |text| >= 7 && text[..7] == "Until: " then text[7..]
    else text
  }

  /** The text always shows which end date it was made from. */
  lemma EndDateTextReadsBack(endDate: string)
    ensures EndDateOfText(EndDateText(endDate)) == endDate
  {
    if endDate != "Ongoing" {
      var t := "Until: " + endDate;
      assert t[0] == 'U';
      assert t != "Ongoing";
      assert t[..7] == "Until: " && t[7..] == endDate;
    }
  }

  /** The visibility of the assistant panel, hidden when the page opens. */
  class AssistantToggle {
    var showAssistant: bool

    constructor ()
      ensures !showAssistant
    {
      showAssistant := false;
    }

    /** The "AI Assistant" / "Hide AI Assistant" button flips visibility,
        so pressing it twice restores it. */
    method Toggle()
      modifies this
      ensures showAssistant == !old(showAssistant)
    {
      showAssistant := !showAssistant;
    }

    /** The panel's close button always hides it. */
    method Close()
      modifies this
      ensures !showAssistant
    {
      showAssistant := false;
    }
  }
}
