/** The patient-records page: a search over name and condition, and the
    "No patients found" message. */
module Patients {
  import opened Text
  import Lists
  import Search

  datatype Patient = Patient(id: string, name: string, condition: string)

  function TermHits(term: string): Patient -> bool {
    (p: Patient) => Search.Matches(p.name, term) || Search.Matches(p.condition, term)
  }

  /** `filteredPatients`: kept iff the lowercased term occurs in the
      lowercased name or condition, in the original order. */
  function Filtered(patients: seq<Patient>, term: string): (r: seq<Patient>)
    ensures forall p :: p in r <==>
      p in patients &&
      (Occurs(ToLower(term), ToLower(p.name)) || Occurs(ToLower(term), ToLower(p.condition)))
    ensures Lists.IsSubsequence(r, patients)
  {
    Lists.Filter(patients, TermHits(term))
  }

  /** The id is not searched, although the placeholder offers it: two
      patients that differ only in id are kept or dropped together. */
  lemma IdIsNotSearched(patients: seq<Patient>, term: string, p: Patient, id: string)
    ensures p in patients && p.(id := id) in patients ==>
      (p in Filtered(patients, term) <==> p.(id := id) in Filtered(patients, term))
  {
  }

  /** An empty search box keeps every patient, in order. */
  lemma EmptyTermKeepsAll(patients: seq<Patient>)
    ensures Filtered(patients, "") == patients
  {
    forall i | 0 <= i < |patients| ensures TermHits("")(patients[i]) {
      Search.EmptyTermMatches(patients[i].name);
    }
    Lists.FilterKeepsAll(patients, TermHits(""));
  }

  /** Terms that differ only in the case of their letters give the same
      list. */
  lemma TermCaseIgnored(patients: seq<Patient>, term: string)
    ensures Filtered(patients, ToUpper(term)) == Filtered(patients, term)
    ensures Filtered(patients, ToLower(term)) == Filtered(patients, term)
  {
    Search.MatchesIgnoresTermCase(term);
    Lists.FilterExtensional(patients, TermHits(ToUpper(term)), TermHits(term));
    Lists.FilterExtensional(patients, TermHits(ToLower(term)), TermHits(term));
  }

  /** The "No patients found" message is shown iff no patient's name or
      condition contains the term. */
  predicate NoPatientsFound(patients: seq<Patient>, term: string): (r: bool)
    ensures r <==> forall i :: 0 <= i < |patients| ==> !TermHits(term)(patients[i])
  {
    Lists.FilterEmptyIffNone(patients, TermHits(term));
    |Filtered(patients, term)| == 0
  }
}
