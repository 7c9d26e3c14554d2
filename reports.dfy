/** The medical-reports page: a search over patient name and report type,
    and the "New", "Critical" and "Reviewed" tabs with their counts. */
module Reports {
  import opened Text
  import Lists
  import Search

  datatype Status = New | Reviewed | Critical

  /** `kind` is the report's free-text `type`. */
  datatype Report = Report(id: string, patientName: string, kind: string, status: Status)

  function TermHits(term: string): Report -> bool {
    (r: Report) => Search.Matches(r.patientName, term) || Search.Matches(r.kind, term)
  }

  /** `filteredReports`, also the "All Reports" tab: kept iff the
      lowercased term occurs in the lowercased patient name or type, in the
      original order. */
  function Filtered(reports: seq<Report>, term: string): (r: seq<Report>)
    ensures forall x :: x in r <==>
      x in reports &&
      (Occurs(ToLower(term), ToLower(x.patientName)) || Occurs(ToLower(term), ToLower(x.kind)))
    ensures Lists.IsSubsequence(r, reports)
  {
    Lists.Filter(reports, TermHits(term))
  }

  /** An empty search box keeps every report, in order. */
  lemma EmptyTermKeepsAll(reports: seq<Report>)
    ensures Filtered(reports, "") == reports
  {
    forall i | 0 <= i < |reports| ensures TermHits("")(reports[i]) {
      Search.EmptyTermMatches(reports[i].patientName);
    }
    Lists.FilterKeepsAll(reports, TermHits(""));
  }

  function HasStatus(s: Status): Report -> bool {
    (r: Report) => r.status == s
  }

  /** `newReports`, `criticalReports`, `reviewedReports`; their lengths are
      the tab counts. */
  function WithStatus(reports: seq<Report>, term: string, s: Status): (r: seq<Report>)
    ensures forall x :: x in r <==> x in Filtered(reports, term) && x.status == s
    ensures Lists.IsSubsequence(r, Filtered(reports, term))
  {
    Lists.Filter(Filtered(reports, term), HasStatus(s))
  }

  /** Every report has exactly one of the three statuses, so the three tabs
      are disjoint and their counts add up to the number of filtered
      reports. */
  lemma TabsPartition(reports: seq<Report>, term: string)
    ensures |WithStatus(reports, term, New)| + |WithStatus(reports, term, Critical)| +
            |WithStatus(reports, term, Reviewed)| == |Filtered(reports, term)|
    ensures forall x :: !(x in WithStatus(reports, term, New) && x in WithStatus(reports, term, Critical))
    ensures forall x :: !(x in WithStatus(reports, term, New) && x in WithStatus(reports, term, Reviewed))
    ensures forall x :: !(x in WithStatus(reports, term, Critical) && x in WithStatus(reports, term, Reviewed))
  {
    Lists.FilterPartition(Filtered(reports, term), HasStatus(New), HasStatus(Critical), HasStatus(Reviewed));
  }
}
