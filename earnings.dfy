/** The earnings page: the earnings split by type, the total of all
    amounts and the total still pending payout. Amounts are whole cents. */
module Earnings {
  import Lists

  datatype Kind = Consultation | Referral | Insurance
  datatype Status = Paid | Pending

  datatype Earning = Earning(id: string, amountCents: int, kind: Kind, status: Status)

  function KindIs(k: Kind): Earning -> bool {
    (e: Earning) => e.kind == k
  }

  function StatusIs(s: Status): Earning -> bool {
    (e: Earning) => e.status == s
  }

  /** `earnings.filter(e => e.type === k)`: the earnings of one type, in
      their original order. */
  function OfKind(earnings: seq<Earning>, k: Kind): (r: seq<Earning>)
    ensures forall e :: e in r <==> e in earnings && e.kind == k
    ensures Lists.IsSubsequence(r, earnings)
  {
    Lists.Filter(earnings, KindIs(k))
  }

  /** The three type lists split the earnings: no earning is in two of
      them, and their lengths add up to the number of earnings. */
  lemma KindsPartition(earnings: seq<Earning>)
    ensures |OfKind(earnings, Consultation)| + |OfKind(earnings, Referral)| +
            |OfKind(earnings, Insurance)| == |earnings|
    ensures forall e :: !(e in OfKind(earnings, Consultation) && e in OfKind(earnings, Referral))
    ensures forall e :: !(e in OfKind(earnings, Consultation) && e in OfKind(earnings, Insurance))
    ensures forall e :: !(e in OfKind(earnings, Referral) && e in OfKind(earnings, Insurance))
  {
    Lists.FilterPartition(earnings, KindIs(Consultation), KindIs(Referral), KindIs(Insurance));
  }

  /** The plain sum of the amounts, from the right: the reference the
      left-to-right `reduce` is checked against. */
  function Sum(earnings: seq<Earning>): int {
    if earnings == [] then 0 else earnings[0].amountCents + Sum(earnings[1..])
  }

  /** `reduce((sum, item) => sum + item.amount, acc)`: adds the amounts
      one by one from the left onto `acc`. */
  function SumFrom(acc: int, earnings: seq<Earning>): int
    decreases earnings
  {
    if earnings == [] then acc else SumFrom(acc + earnings[0].amountCents, earnings[1..])
  }

  lemma {:induction false} SumFromIsSum(acc: int, earnings: seq<Earning>)
    ensures SumFrom(acc, earnings) == acc + Sum(earnings)
    decreases earnings
  {
    if earnings != [] {
      SumFromIsSum(acc + earnings[0].amountCents, earnings[1..]);
    }
  }

  /** `totalEarnings`: the sum of all amounts, 0 for no earnings. */
  function Total(earnings: seq<Earning>): (r: int)
    ensures r == Sum(earnings)
  {
    SumFromIsSum(0, earnings);
    SumFrom(0, earnings)
  }

  /** The amounts of the earnings with status `st`, added from the right. */
  function SumWithStatus(earnings: seq<Earning>, st: Status): int {
    if earnings == [] then 0
    else (if earnings[0].status == st then earnings[0].amountCents else 0) + SumWithStatus(earnings[1..], st)
  }

  lemma {:induction false} SumOfConcat(a: seq<Earning>, b: seq<Earning>)
    ensures Sum(a + b) == Sum(a) + Sum(b)
  {
    if a == [] {
      assert a + b == b;
    } else {
      assert (a + b)[1..] == a[1..] + b;
      SumOfConcat(a[1..], b);
    }
  }

  /** Summing the filtered list is summing the amounts with that status. */
  lemma {:induction false} SumOfFiltered(earnings: seq<Earning>, st: Status)
    ensures Sum(Lists.Filter(earnings, StatusIs(st))) == SumWithStatus(earnings, st)
  {
    if earnings != [] {
      Lists.FilterUncons(earnings, StatusIs(st));
      SumOfFiltered(earnings[1..], st);
      if earnings[0].status == st {
        SumOfConcat([earnings[0]], Lists.Filter(earnings[1..], StatusIs(st)));
      }
    }
  }

  /** `pendingEarnings`: the sum of the amounts still pending. */
  function PendingTotal(earnings: seq<Earning>): (r: int)
    ensures r == SumWithStatus(earnings, Pending)
  {
    SumOfFiltered(earnings, Pending);
    Total(Lists.Filter(earnings, StatusIs(Pending)))
  }

  /** Every earning is either paid or pending, so the paid amounts and the
      pending amounts add up to the total. */
  lemma PaidAndPendingMakeTotal(earnings: seq<Earning>)
    ensures Total(Lists.Filter(earnings, StatusIs(Paid))) + PendingTotal(earnings) == Total(earnings)
  {
    SumOfFiltered(earnings, Paid);
    StatusSumsAddUp(earnings);
  }

  lemma {:induction false} StatusSumsAddUp(earnings: seq<Earning>)
    ensures SumWithStatus(earnings, Paid) + SumWithStatus(earnings, Pending) == Sum(earnings)
  {
    if earnings != [] {
      StatusSumsAddUp(earnings[1..]);
    }
  }

  lemma {:induction false} SumWithStatusNonNegative(earnings: seq<Earning>, st: Status)
    requires forall i :: 0 <= i < |earnings| ==> earnings[i].amountCents >= 0
    ensures SumWithStatus(earnings, st) >= 0
  {
    if earnings != [] {
      SumWithStatusNonNegative(earnings[1..], st);
    }
  }

  /** With no negative amounts, the pending total lies between 0 and the
      total. */
  lemma PendingWithinTotal(earnings: seq<Earning>)
    requires forall i :: 0 <= i < |earnings| ==> earnings[i].amountCents >= 0
    ensures 0 <= PendingTotal(earnings) <= Total(earnings)
  {
    SumWithStatusNonNegative(earnings, Paid);
    SumWithStatusNonNegative(earnings, Pending);
    StatusSumsAddUp(earnings);
  }

  /** The number of earnings of one type, counted one by one. */
  function CountOfKind(earnings: seq<Earning>, k: Kind): nat {
    if earnings == [] then 0 else (if earnings[0].kind == k then 1 else 0) + CountOfKind(earnings[1..], k)
  }

  lemma {:induction false} OfKindCounts(earnings: seq<Earning>, k: Kind)
    ensures |OfKind(earnings, k)| == CountOfKind(earnings, k)
  {
    if earnings != [] {
      Lists.FilterUncons(earnings, KindIs(k));
      OfKindCounts(earnings[1..], k);
    }
  }

  /** The five earnings the page lists (only the fields used here). */
  const Shipped: seq<Earning> := [
    Earning("1", 15000, Consultation, Paid),
    Earning("2", 5000, Referral, Paid),
    Earning("3", 7500, Insurance, Pending),
    Earning("4", 12500, Consultation, Paid),
    Earning("5", 10000, Referral, Pending)
  ]

  /** The page shows $500.00 earned. */
  lemma ShippedTotal()
    ensures Total(Shipped) == 50000
  {
    assert Shipped[4..][1..] == [];
    assert Sum(Shipped[4..]) == 10000;
    assert Sum(Shipped[3..]) == 22500;
    assert Sum(Shipped[2..]) == 30000;
    assert Sum(Shipped[1..]) == 35000;
  }

  /** Of which $175.00 is pending: the insurance commission and the second
      referral. */
  lemma ShippedPending()
    ensures PendingTotal(Shipped) == 17500
  {
    assert Shipped[4..][1..] == [];
    assert SumWithStatus(Shipped[4..], Pending) == 10000;
    assert SumWithStatus(Shipped[3..], Pending) == 10000;
    assert SumWithStatus(Shipped[2..], Pending) == 17500;
    assert SumWithStatus(Shipped[1..], Pending) == 17500;
  }

  lemma ShippedKindCounts()
    ensures CountOfKind(Shipped, Consultation) == 2
    ensures CountOfKind(Shipped, Referral) == 2
    ensures CountOfKind(Shipped, Insurance) == 1
  {
    assert Shipped[4..][1..] == [];
    assert CountOfKind(Shipped[4..], Consultation) == 0;
    assert CountOfKind(Shipped[3..], Consultation) == 1;
    assert CountOfKind(Shipped[2..], Consultation) == 1;
    assert CountOfKind(Shipped[1..], Consultation) == 1;
    assert CountOfKind(Shipped[4..], Referral) == 1;
    assert CountOfKind(Shipped[3..], Referral) == 1;
    assert CountOfKind(Shipped[2..], Referral) == 1;
    assert CountOfKind(Shipped[1..], Referral) == 2;
    assert CountOfKind(Shipped[4..], Insurance) == 0;
    assert CountOfKind(Shipped[3..], Insurance) == 0;
    assert CountOfKind(Shipped[2..], Insurance) == 1;
    assert CountOfKind(Shipped[1..], Insurance) == 1;
  }

  /** Two consultations, two referrals and one insurance commission. */
  lemma ShippedKinds()
    ensures |OfKind(Shipped, Consultation)| == 2 && |OfKind(Shipped, Referral)| == 2 &&
            |OfKind(Shipped, Insurance)| == 1
  {
    ShippedKindCounts();
    OfKindCounts(Shipped, Consultation);
    OfKindCounts(Shipped, Referral);
    OfKindCounts(Shipped, Insurance);
  }
}
