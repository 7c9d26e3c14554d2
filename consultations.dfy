/** The consultations page: a search over patient name and reason, the
    "Upcoming" and "Completed" tabs with their counts, and the "All
    Consultations" tab. */
module Consultations {
  import opened Text
  import Lists
  import Search

  datatype Status = Upcoming | Completed | Cancelled

  datatype Consultation = Consultation(id: string, patientName: string, reason: string, status: Status)

  function TermHits(term: string): Consultation -> bool {
    (c: Consultation) => Search.Matches(c.patientName, term) || Search.Matches(c.reason, term)
  }

  /** `filteredConsultations`, also the "All Consultations" tab: kept iff
      the lowercased term occurs in the lowercased patient name or reason,
      in the original order. */
  function Filtered(consultations: seq<Consultation>, term: string): (r: seq<Consultation>)
    ensures forall c :: c in r <==>
      c in consultations &&
      (Occurs(ToLower(term), ToLower(c.patientName)) || Occurs(ToLower(term), ToLower(c.reason)))
    ensures Lists.IsSubsequence(r, consultations)
  {
    Lists.Filter(consultations, TermHits(term))
  }

  /** An empty search box keeps every consultation, in order. */
  lemma EmptyTermKeepsAll(consultations: seq<Consultation>)
    ensures Filtered(consultations, "") == consultations
  {
    forall i | 0 <= i < |consultations| ensures TermHits("")(consultations[i]) {
      Search.EmptyTermMatches(consultations[i].patientName);
    }
    Lists.FilterKeepsAll(consultations, TermHits(""));
  }

  function HasStatus(s: Status): Consultation -> bool {
    (c: Consultation) => c.status == s
  }

  /** `upcomingConsultations` and `completedConsultations`; their lengths
      are the counts on the two tabs. */
  function WithStatus(consultations: seq<Consultation>, term: string, s: Status): (r: seq<Consultation>)
    ensures forall c :: c in r <==> c in Filtered(consultations, term) && c.status == s
    ensures Lists.IsSubsequence(r, Filtered(consultations, term))
  {
    Lists.Filter(Filtered(consultations, term), HasStatus(s))
  }

  /** The two tabs never share a consultation, and together they hold at
      most the filtered list; exactly all of it iff no filtered
      consultation was cancelled (cancelled ones are only in "All"). */
  lemma TabsWithinFiltered(consultations: seq<Consultation>, term: string)
    ensures forall c :: !(c in WithStatus(consultations, term, Upcoming) &&
                          c in WithStatus(consultations, term, Completed))
    ensures |WithStatus(consultations, term, Upcoming)| + |WithStatus(consultations, term, Completed)|
            <= |Filtered(consultations, term)|
    ensures |WithStatus(consultations, term, Upcoming)| + |WithStatus(consultations, term, Completed)|
            == |Filtered(consultations, term)| <==>
            forall c :: c in Filtered(consultations, term) ==> c.status != Cancelled
  {
    var f := Filtered(consultations, term);
    Lists.FilterPartition(f, HasStatus(Upcoming), HasStatus(Completed), HasStatus(Cancelled));
    Lists.FilterEmptyIffNone(f, HasStatus(Cancelled));
    if forall c :: c in f ==> c.status != Cancelled {
      forall i | 0 <= i < |f| ensures !HasStatus(Cancelled)(f[i]) {
        assert f[i] in f;
      }
    }
  }

  /** The "Upcoming" tab shows its empty state iff no filtered
      consultation is upcoming. */
  predicate NoUpcoming(consultations: seq<Consultation>, term: string): (r: bool)
    ensures r <==> forall c :: c in Filtered(consultations, term) ==> c.status != Upcoming
  {
    var upcoming := WithStatus(consultations, term, Upcoming);
    assert upcoming != [] ==> upcoming[0] in upcoming;
    |upcoming| == 0
  }
}
