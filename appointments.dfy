/** The appointments page: the four status tabs in list or calendar view,
    each item's status badge and its action button. */
module Appointments {
  import opened Text
  import Lists

  datatype Status = Upcoming | Completed | Cancelled

  datatype Appointment = Appointment(id: string, patientName: string, status: Status)

  /** The status as the data spells it. */
  function StatusName(s: Status): string {
    match s
    case Upcoming => "upcoming"
    case Completed => "completed"
    case Cancelled => "cancelled"
  }

  /** `s.charAt(0).toUpperCase() + s.slice(1)`: the first character in
      upper case, the rest unchanged; the empty string stays empty. */
  function Capitalize(s: string): (r: string)
    ensures |r| == |s|
    ensures s != [] ==> r[0] == UpperChar(s[0]) && r[1..] == s[1..]
  {
    if s == [] then [] else ToUpper(s[..1]) + s[1..]
  }

  /** Capitalising changes the case of one letter only, so lowercasing
      undoes it. */
  lemma CapitalizeOnlyChangesCase(s: string)
    ensures ToLower(Capitalize(s)) == ToLower(s)
  {
    if s != [] {
      var r, l, m := Capitalize(s), ToLower(Capitalize(s)), ToLower(s);
      forall i | 0 <= i < |s| ensures l[i] == m[i] {
        if i == 0 {
          assert LowerChar(UpperChar(s[0])) == LowerChar(s[0]);
        } else {
          assert r[i] == r[1..][i - 1] == s[i];
        }
      }
    }
  }

  /** Capitalising twice is capitalising once. */
  lemma CapitalizeIdempotent(s: string)
    ensures Capitalize(Capitalize(s)) == Capitalize(s)
  {
    if s != [] {
      var r := Capitalize(s);
      assert UpperChar(UpperChar(s[0])) == UpperChar(s[0]);
      assert Capitalize(r)[0] == r[0];
      assert Capitalize(r)[1..] == r[1..];
    }
  }

  /** The status badges read "Upcoming", "Completed" and "Cancelled". */
  lemma StatusLabels()
    ensures Capitalize(StatusName(Upcoming)) == "Upcoming"
    ensures Capitalize(StatusName(Completed)) == "Completed"
    ensures Capitalize(StatusName(Cancelled)) == "Cancelled"
  {
    assert Capitalize("upcoming") == ['U'] + "upcoming"[1..];
    assert Capitalize("completed") == ['C'] + "completed"[1..];
    assert Capitalize("cancelled") == ['C'] + "cancelled"[1..];
  }

  /** The action button of an item. */
  function ActionLabel(s: Status): (r: string)
    ensures r == "Join" <==> s == Upcoming
    ensures r != "Join" ==> r == "View details"
  {
    if s == Upcoming then "Join" else "View details"
  }

  datatype View = ListView | CalendarView

  datatype Tab = AllTab | UpcomingTab | CompletedTab | CancelledTab

  /** What a tab shows: a list of items, the calendar placeholder, or the
      fixed "No cancelled appointments" text. */
  datatype Panel = Items(items: seq<Appointment>) | CalendarPlaceholder | NoCancelledNotice

  function HasStatus(s: Status): Appointment -> bool {
    (a: Appointment) => a.status == s
  }

  /** The content of one tab. */
  function TabContent(appointments: seq<Appointment>, view: View, tab: Tab): (r: Panel)
    ensures r == NoCancelledNotice <==> tab == CancelledTab
    ensures r == CalendarPlaceholder <==> tab != CancelledTab && view == CalendarView
    ensures view == ListView && tab == AllTab ==> r == Items(appointments)
    ensures r.Items? ==> view == ListView && Lists.IsSubsequence(r.items, appointments)
    ensures view == ListView && tab == UpcomingTab ==>
      r.Items? && forall a :: a in r.items <==> a in appointments && a.status == Upcoming
    ensures view == ListView && tab == CompletedTab ==>
      r.Items? && forall a :: a in r.items <==> a in appointments && a.status == Completed
  {
    Lists.SubsequenceOfItself(appointments);
    if tab == CancelledTab then NoCancelledNotice
    else if view.CalendarView? then CalendarPlaceholder
    else if tab == AllTab then Items(appointments)
    else if tab == UpcomingTab then Items(Lists.Filter(appointments, HasStatus(Upcoming)))
    else Items(Lists.Filter(appointments, HasStatus(Completed)))
  }

  /** In list view every item of the Upcoming tab offers "Join" and every
      item of the Completed tab offers "View details". */
  lemma TabActions(appointments: seq<Appointment>)
    ensures forall a :: a in TabContent(appointments, ListView, UpcomingTab).items ==>
      ActionLabel(a.status) == "Join"
    ensures forall a :: a in TabContent(appointments, ListView, CompletedTab).items ==>
      ActionLabel(a.status) == "View details"
  {
  }
}
