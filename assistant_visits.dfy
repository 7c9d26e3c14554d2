/** The assistant-visits page: a search over patient, assistant and address,
    the visits of the result grouped by status, the live count and the
    "No visits found" state. */
module AssistantVisits {
  import opened Text
  import Lists
  import Search

  datatype Status = InProgress | Scheduled | Completed

  datatype Visit = Visit(id: string, patientName: string, assistantName: string,
                         address: string, status: Status)

  function QueryHits(query: string): Visit -> bool {
    (v: Visit) => Search.Matches(v.patientName, query) || Search.Matches(v.assistantName, query) ||
                  Search.Matches(v.address, query)
  }

  /** `filteredVisits`: a visit is kept iff the lowercased query occurs in
      its lowercased patient name, assistant name or address; the kept
      visits stay in their order. */
  function Filtered(visits: seq<Visit>, query: string): (r: seq<Visit>)
    ensures forall v :: v in r <==>
      v in visits &&
      (Occurs(ToLower(query), ToLower(v.patientName)) ||
       Occurs(ToLower(query), ToLower(v.assistantName)) ||
       Occurs(ToLower(query), ToLower(v.address)))
    ensures Lists.IsSubsequence(r, visits)
  {
    Lists.Filter(visits, QueryHits(query))
  }

  /** An empty search box shows every visit. */
  lemma EmptyQueryKeepsAll(visits: seq<Visit>)
    ensures Filtered(visits, "") == visits
  {
    forall i | 0 <= i < |visits| ensures QueryHits("")(visits[i]) {
      Search.EmptyTermMatches(visits[i].patientName);
    }
    Lists.FilterKeepsAll(visits, QueryHits(""));
  }

  function HasStatus(s: Status): Visit -> bool {
    (v: Visit) => v.status == s
  }

  /** `inProgressVisits`, `scheduledVisits`, `completedVisits`: the
      filtered visits with one status, in order. */
  function WithStatus(visits: seq<Visit>, query: string, s: Status): (r: seq<Visit>)
    ensures forall v :: v in r <==> v in Filtered(visits, query) && v.status == s
    ensures Lists.IsSubsequence(r, Filtered(visits, query))
  {
    Lists.Filter(Filtered(visits, query), HasStatus(s))
  }

  /** Every visit has exactly one of the three statuses, so the three lists
      are disjoint and together as long as the filtered list. */
  lemma StatusesPartition(visits: seq<Visit>, query: string)
    ensures |WithStatus(visits, query, InProgress)| + |WithStatus(visits, query, Scheduled)| +
            |WithStatus(visits, query, Completed)| == |Filtered(visits, query)|
    ensures forall v :: !(v in WithStatus(visits, query, InProgress) && v in WithStatus(visits, query, Scheduled))
    ensures forall v :: !(v in WithStatus(visits, query, InProgress) && v in WithStatus(visits, query, Completed))
    ensures forall v :: !(v in WithStatus(visits, query, Scheduled) && v in WithStatus(visits, query, Completed))
  {
    Lists.FilterPartition(Filtered(visits, query), HasStatus(InProgress), HasStatus(Scheduled),
                          HasStatus(Completed));
  }

  /** The "All" tab's empty-state test, on the three status lists: it is
      shown iff no visit matches the search. */
  predicate NoVisitsFound(visits: seq<Visit>, query: string): (r: bool)
    ensures r <==> Filtered(visits, query) == []
  {
    StatusesPartition(visits, query);
    |WithStatus(visits, query, InProgress)| == 0 && |WithStatus(visits, query, Scheduled)| == 0 &&
    |WithStatus(visits, query, Completed)| == 0
  }

  /** The number on the "Live Visits" button: the filtered visits in
      progress, which is what is left of the filtered list once the
      scheduled and completed visits are taken out. */
  function LiveCount(visits: seq<Visit>, query: string): (r: nat)
    ensures r <= |Filtered(visits, query)|
    ensures r == |Filtered(visits, query)| - |WithStatus(visits, query, Scheduled)| -
                 |WithStatus(visits, query, Completed)|
    ensures r == 0 <==> forall v :: v in Filtered(visits, query) ==> v.status != InProgress
  {
    StatusesPartition(visits, query);
    Lists.FilterEmptyIffNone(Filtered(visits, query), HasStatus(InProgress));
    |WithStatus(visits, query, InProgress)|
  }
}
