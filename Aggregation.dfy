// The pure part of `ChartView.setCategories`: payments are grouped by the
// lower-cased category, each group's amounts are added up (Kotlin's
// `groupingBy { .. }.aggregate { .. }`, which keeps groups in order of first
// appearance), the groups are ranked by total with a stable descending sort,
// the first nine are kept and the rest fold into one trailing "Другое"
// ("Other") entry.

module Aggregation {
  import opened Common
  import opened Text
  import opened Payments
  import opened Sorting

  const MAX_CATEGORIES: nat := 10
  /** Groups shown under their own name; the rest fold into OTHER. */
  const KEPT: nat := MAX_CATEGORIES - 1
  const OTHER: string := "Другое"

  /** One group: its grouping key and the sum of its payments' amounts. */
  datatype Tally = Tally(key: string, total: int)

  function Key(t: Tally): string { t.key }
  function TotalOf(t: Tally): int { t.total }
  /** Sort key of `sortedByDescending { it.second }`. */
  function Descending(t: Tally): int { -t.total }

  function GroupKey(p: Payment): string
  {
    Lower(p.category)
  }

  /** Sum of the amounts of the payments whose grouping key is `k`. */
  function AmountFor(ps: seq<Payment>, k: string): int
  {
    if ps == [] then 0
    else
      var p := ps[|ps| - 1];
      AmountFor(ps[..|ps| - 1], k) + (if GroupKey(p) == k then p.amount else 0)
  }

  /** Position of the group with key `k`, or -1 when there is none. */
  function FindKey(ts: seq<Tally>, k: string): (i: int)
    ensures -1 <= i < |ts|
    ensures i >= 0 ==> ts[i].key == k
    ensures i == -1 <==> forall j :: 0 <= j < |ts| ==> ts[j].key != k
  {
    if ts == [] then -1
    else if ts[0].key == k then 0
    else
      var j := FindKey(ts[1..], k);
      assert forall m :: 1 <= m < |ts| ==> ts[m] == ts[1..][m - 1];
      if j == -1 then -1 else j + 1
  }

  /** One step of `aggregate`: add `amount` to group `k`, opening the group
      at the end when it is new. */
  function AddTo(ts: seq<Tally>, k: string, amount: int): (r: seq<Tally>)
  {
    var i := FindKey(ts, k);
    if i >= 0 then ts[i := Tally(k, ts[i].total + amount)] else ts + [Tally(k, amount)]
  }

  /** The groups in order of first appearance, with their totals. */
  function Tallies(ps: seq<Payment>): seq<Tally>
  {
    if ps == [] then []
    else
      var p := ps[|ps| - 1];
      AddTo(Tallies(ps[..|ps| - 1]), GroupKey(p), p.amount)
  }

  /** Some payment has grouping key `k`. */
  ghost predicate HasPayment(ps: seq<Payment>, k: string)
  {
    exists j :: 0 <= j < |ps| && GroupKey(ps[j]) == k
  }

  /** What the groups of `ps` are: every key once, each payment's key
      present, each key coming from some payment, each total that key's sum. */
  ghost predicate GroupsOf(ts: seq<Tally>, ps: seq<Payment>)
  {
    && DistinctBy(ts, Key)
    && (forall j :: 0 <= j < |ps| ==> FindKey(ts, GroupKey(ps[j])) >= 0)
    && (forall i :: 0 <= i < |ts| ==> HasPayment(ps, ts[i].key))
    && (forall i :: 0 <= i < |ts| ==> ts[i].total == AmountFor(ps, ts[i].key))
  }

  lemma {:induction false} AmountForSnoc(ps: seq<Payment>, p: Payment, k: string)
    ensures AmountFor(ps + [p], k) == AmountFor(ps, k) + (if GroupKey(p) == k then p.amount else 0)
  {
    assert (ps + [p])[..|ps|] == ps;
  }

  lemma {:induction false} AmountForAbsent(ps: seq<Payment>, k: string)
    requires forall j :: 0 <= j < |ps| ==> GroupKey(ps[j]) != k
    ensures AmountFor(ps, k) == 0
  {
    if ps != [] {
      AmountForAbsent(ps[..|ps| - 1], k);
    }
  }

  lemma {:induction false} SumByUpdate<T>(s: seq<T>, i: nat, y: T, g: T -> int)
    requires i < |s|
    ensures SumBy(s[i := y], g) == SumBy(s, g) - g(s[i]) + g(y)
  {
    if i > 0 {
      assert s[i := y][1..] == s[1..][i - 1 := y];
      SumByUpdate(s[1..], i - 1, y, g);
    }
  }

  /** Which positions of the groups change in one step of `aggregate`. */
  lemma {:induction false} AddToShape(ts: seq<Tally>, k: string, amount: int)
    ensures var r, i := AddTo(ts, k, amount), FindKey(ts, k);
      && (i >= 0 ==> |r| == |ts| && r[i] == Tally(k, ts[i].total + amount)
                     && forall a :: 0 <= a < |ts| && a != i ==> r[a] == ts[a])
      && (i < 0 ==> |r| == |ts| + 1 && r[|ts|] == Tally(k, amount)
                    && forall a :: 0 <= a < |ts| ==> r[a] == ts[a])
  {
  }

  /** Every group key occurs once. */
  lemma {:induction false} TalliesDistinct(ps: seq<Payment>)
    ensures DistinctBy(Tallies(ps), Key)
  {
    if ps != [] {
      var init := ps[..|ps| - 1];
      var p := ps[|ps| - 1];
      var ts := Tallies(init);
      TalliesDistinct(init);
      AddToShape(ts, GroupKey(p), p.amount);
      var r := Tallies(ps);
      forall a, b | 0 <= a < b < |r| ensures r[a].key != r[b].key {
        if b < |ts| {
          assert r[a].key == ts[a].key && r[b].key == ts[b].key;
        }
      }
    }
  }

  /** The key of every payment has a group. */
  lemma {:induction false} TalliesCover(ps: seq<Payment>)
    ensures forall j :: 0 <= j < |ps| ==> FindKey(Tallies(ps), GroupKey(ps[j])) >= 0
  {
    if ps != [] {
      var init := ps[..|ps| - 1];
      var p := ps[|ps| - 1];
      var ts := Tallies(init);
      TalliesCover(init);
      AddToShape(ts, GroupKey(p), p.amount);
      var r := Tallies(ps);
      forall j | 0 <= j < |ps| ensures FindKey(r, GroupKey(ps[j])) >= 0 {
        if j < |init| {
          assert ps[j] == init[j];
          var m := FindKey(ts, GroupKey(init[j]));
          assert r[m].key == ts[m].key;
        } else {
          var i := FindKey(ts, GroupKey(p));
          assert r[if i >= 0 then i else |ts|].key == GroupKey(p);
        }
      }
    }
  }

  /** Every group comes from some payment. */
  lemma {:induction false} TalliesOrigin(ps: seq<Payment>)
    ensures forall a :: 0 <= a < |Tallies(ps)| ==> HasPayment(ps, Tallies(ps)[a].key)
  {
    if ps != [] {
      var init := ps[..|ps| - 1];
      var p := ps[|ps| - 1];
      var ts := Tallies(init);
      TalliesOrigin(init);
      AddToShape(ts, GroupKey(p), p.amount);
      var r := Tallies(ps);
      forall a | 0 <= a < |r| ensures HasPayment(ps, r[a].key) {
        if a < |ts| && r[a].key == ts[a].key {
          assert HasPayment(init, ts[a].key);
          var j :| 0 <= j < |init| && GroupKey(init[j]) == ts[a].key;
          assert ps[j] == init[j];
        } else {
          assert GroupKey(ps[|ps| - 1]) == r[a].key;
        }
      }
    }
  }

  /** Each group's total is the sum of its payments' amounts. */
  lemma {:induction false} TalliesTotals(ps: seq<Payment>)
    ensures forall a :: 0 <= a < |Tallies(ps)| ==> Tallies(ps)[a].total == AmountFor(ps, Tallies(ps)[a].key)
  {
    if ps != [] {
      var init := ps[..|ps| - 1];
      var p := ps[|ps| - 1];
      var k := GroupKey(p);
      var ts := Tallies(init);
      TalliesTotals(init);
      TalliesDistinct(init);
      TalliesCover(init);
      AddToShape(ts, k, p.amount);
      assert ps == init + [p];
      var r := Tallies(ps);
      var i := FindKey(ts, k);
      if i < 0 {
        forall j | 0 <= j < |init| ensures GroupKey(init[j]) != k {
          var m := FindKey(ts, GroupKey(init[j]));
        }
        AmountForAbsent(init, k);
      }
      forall a | 0 <= a < |r| ensures r[a].total == AmountFor(ps, r[a].key) {
        AmountForSnoc(init, p, r[a].key);
        if a != i && a < |ts| {
          assert r[a] == ts[a];
          if i >= 0 { assert ts[a].key != ts[i].key; }
        }
      }
    }
  }

  /** No amount is lost or counted twice. */
  lemma {:induction false} TalliesSum(ps: seq<Payment>)
    ensures SumBy(Tallies(ps), TotalOf) == SumBy(ps, Amount)
  {
    if ps != [] {
      var init := ps[..|ps| - 1];
      var p := ps[|ps| - 1];
      var k := GroupKey(p);
      var ts := Tallies(init);
      TalliesSum(init);
      assert ps == init + [p];
      SumBySnoc(init, p, Amount);
      var i := FindKey(ts, k);
      if i >= 0 {
        SumByUpdate(ts, i, Tally(k, ts[i].total + p.amount), TotalOf);
      } else {
        SumBySnoc(ts, Tally(k, p.amount), TotalOf);
      }
    }
  }

  /** Grouping is exact: the groups are those of the payments, and no
      amount is lost or counted twice. */
  lemma {:induction false} TalliesAreGroups(ps: seq<Payment>)
    ensures GroupsOf(Tallies(ps), ps)
    ensures SumBy(Tallies(ps), TotalOf) == SumBy(ps, Amount)
  {
    TalliesDistinct(ps);
    TalliesCover(ps);
    TalliesOrigin(ps);
    TalliesTotals(ps);
    TalliesSum(ps);
  }

  /** The groups ranked by total, largest first; ties keep first-appearance order. */
  function Ranked(ps: seq<Payment>): seq<Tally>
  {
    SortBy(Tallies(ps), Descending)
  }

  /** A rearrangement of the groups, keys still distinct, describes the same groups. */
  lemma {:induction false} SameElementsSameGroups(ts: seq<Tally>, r: seq<Tally>, ps: seq<Payment>)
    requires GroupsOf(ts, ps)
    requires DistinctBy(r, Key)
    requires forall e :: e in r <==> e in ts
    ensures GroupsOf(r, ps)
  {
    forall j | 0 <= j < |ps| ensures FindKey(r, GroupKey(ps[j])) >= 0 {
      var m := FindKey(ts, GroupKey(ps[j]));
      assert ts[m] in r;
      var a :| 0 <= a < |r| && r[a] == ts[m];
    }
    forall a | 0 <= a < |r| ensures HasPayment(ps, r[a].key) && r[a].total == AmountFor(ps, r[a].key) {
      assert r[a] in ts;
      var m :| 0 <= m < |ts| && ts[m] == r[a];
    }
  }

  /** Ranking keeps the groups and their totals and orders them by total. */
  lemma {:induction false} RankedAreGroups(ps: seq<Payment>)
    ensures GroupsOf(Ranked(ps), ps)
    ensures |Ranked(ps)| == |Tallies(ps)|
    ensures SumBy(Ranked(ps), TotalOf) == SumBy(ps, Amount)
  {
    var ts := Tallies(ps);
    TalliesAreGroups(ps);
    SortByDistinct(ts, Descending, Key);
    SameElementsSameGroups(ts, Ranked(ps), ps);
    SumBySort(ts, Descending, TotalOf);
  }

  /** The ranked groups are in non-increasing order of total. */
  lemma {:induction false} RankedOrder(ps: seq<Payment>)
    ensures forall i, j :: 0 <= i < j < |Ranked(ps)| ==> Ranked(ps)[i].total >= Ranked(ps)[j].total
  {
    var r := Ranked(ps);
    assert SortedBy(r, Descending);
    forall i, j | 0 <= i < j < |r| ensures r[i].total >= r[j].total {
      assert Descending(r[i]) <= Descending(r[j]);
    }
  }

  function ToCategory(t: Tally): Category
  {
    Category(Capitalize(t.key), t.total)
  }

  /** The `Category` records built from groups, in the same order. */
  function Displayed(ts: seq<Tally>): (r: seq<Category>)
    ensures |r| == |ts|
    ensures forall i :: 0 <= i < |ts| ==> r[i] == ToCategory(ts[i])
  {
    seq(|ts|, i requires 0 <= i < |ts| => ToCategory(ts[i]))
  }

  lemma {:induction false} DisplayedSum(ts: seq<Tally>)
    ensures SumBy(Displayed(ts), CategoryAmount) == SumBy(ts, TotalOf)
  {
    if ts != [] {
      assert Displayed(ts)[1..] == Displayed(ts[1..]);
      DisplayedSum(ts[1..]);
    }
  }

  /** Number of groups shown under their own name. */
  function KeptCount(ps: seq<Payment>): nat
  {
    Min(KEPT, |Ranked(ps)|)
  }

  /** `otherCategories` after `setCategories`: the groups beyond the first nine. */
  function Collapsed(ps: seq<Payment>): seq<Category>
  {
    Displayed(Ranked(ps)[KeptCount(ps)..])
  }

  /** `chartCategories` after `setCategories`. */
  function Aggregate(ps: seq<Payment>): seq<Category>
  {
    var top := Displayed(Ranked(ps)[..KeptCount(ps)]);
    var rest := Collapsed(ps);
    if |rest| > 0 then top + [Category(OTHER, SumBy(rest, CategoryAmount))] else top
  }

  /** How `Aggregate` is laid out: the kept groups, then OTHER when some
      group was collapsed. */
  lemma {:induction false} AggregateLayout(ps: seq<Payment>)
    ensures var a, r, n := Aggregate(ps), Ranked(ps), KeptCount(ps);
      && |r| == |Tallies(ps)|
      && (|r| > KEPT ==> n == KEPT && |a| == n + 1 && a[n] == Category(OTHER, SumBy(Collapsed(ps), CategoryAmount)))
      && (|r| <= KEPT ==> n == |r| && |a| == n)
      && forall i :: 0 <= i < n ==> a[i] == ToCategory(r[i])
  {
    var r, n := Ranked(ps), KeptCount(ps);
    assert |Collapsed(ps)| == |r| - n;
  }

  /** At most ten entries, none for no payments, and one more than the kept
      groups exactly when more than nine groups exist. */
  lemma {:induction false} AggregateSize(ps: seq<Payment>)
    ensures var a, n := Aggregate(ps), KeptCount(ps);
      && |a| <= MAX_CATEGORIES
      && (a == [] <==> ps == [])
      && (|a| == n + 1 <==> |Tallies(ps)| > KEPT)
      && (|a| == n <==> |Tallies(ps)| <= KEPT)
  {
    var r := Ranked(ps);
    AggregateLayout(ps);
    TalliesCover(ps);
    if ps != [] {
      assert FindKey(Tallies(ps), GroupKey(ps[0])) >= 0;
    }
    if |r| > 0 {
      RankedAreGroups(ps);
      assert HasPayment(ps, r[0].key);
    }
  }

  /** The kept entries are the largest groups under their display names, in
      non-increasing order of amount, each amount the sum of that group's
      payments; no kept group is smaller than a collapsed one. */
  lemma {:induction false} AggregateKept(ps: seq<Payment>)
    ensures var a, r, n := Aggregate(ps), Ranked(ps), KeptCount(ps);
      && (forall i :: 0 <= i < n ==> a[i] == Category(Capitalize(r[i].key), AmountFor(ps, r[i].key)))
      && (forall i, j :: 0 <= i < j < n ==> a[i].amount >= a[j].amount)
      && (forall i, j :: 0 <= i < n <= j < |r| ==> a[i].amount >= r[j].total)
  {
    var a, r, n := Aggregate(ps), Ranked(ps), KeptCount(ps);
    AggregateLayout(ps);
    RankedAreGroups(ps);
    RankedOrder(ps);
    forall i | 0 <= i < n ensures a[i] == Category(Capitalize(r[i].key), AmountFor(ps, r[i].key)) {
      assert a[i] == ToCategory(r[i]);
    }
  }

  /** The OTHER entry, when present, is last and carries exactly the sum of
      the collapsed groups; with it, the entries add up to all payments. */
  lemma {:induction false} AggregateConserves(ps: seq<Payment>)
    ensures var a, r, n := Aggregate(ps), Ranked(ps), KeptCount(ps);
      && (|r| > KEPT ==> a[|a| - 1] == Category(OTHER, SumBy(r[n..], TotalOf)))
      && SumBy(a, CategoryAmount) == SumBy(ps, Amount)
  {
    var a, r, n := Aggregate(ps), Ranked(ps), KeptCount(ps);
    var top := Displayed(r[..n]);
    KeptPlusCollapsed(ps);
    DisplayedSum(r[n..]);
    if |r| > KEPT {
      assert a == top + [Category(OTHER, SumBy(Collapsed(ps), CategoryAmount))];
      SumBySnoc(top, Category(OTHER, SumBy(Collapsed(ps), CategoryAmount)), CategoryAmount);
    } else {
      assert Collapsed(ps) == [];
      assert a == top;
    }
  }

  /** The kept groups and the collapsed groups together hold every amount. */
  lemma {:induction false} KeptPlusCollapsed(ps: seq<Payment>)
    ensures var r, n := Ranked(ps), KeptCount(ps);
      SumBy(Displayed(r[..n]), CategoryAmount) + SumBy(Collapsed(ps), CategoryAmount) == SumBy(ps, Amount)
  {
    var r, n := Ranked(ps), KeptCount(ps);
    RankedAreGroups(ps);
    assert r == r[..n] + r[n..];
    SumByAppend(r[..n], r[n..], TotalOf);
    DisplayedSum(r[..n]);
    DisplayedSum(r[n..]);
  }

  /** No two groups share a lower-cased name, so the kept entries have
      pairwise different display names; lowering a kept entry's name gives
      its grouping key back. */
  lemma {:induction false} AggregateNamesDistinct(ps: seq<Payment>)
    ensures var a, r, n := Aggregate(ps), Ranked(ps), KeptCount(ps);
      && DistinctBy(r, Key)
      && (forall i :: 0 <= i < n ==> Lower(a[i].name) == r[i].key)
      && (forall i, j :: 0 <= i < j < n ==> a[i].name != a[j].name)
  {
    var a, r, n := Aggregate(ps), Ranked(ps), KeptCount(ps);
    RankedAreGroups(ps);
    forall i | 0 <= i < |r| ensures IsLowered(r[i].key) {
      var j :| 0 <= j < |ps| && GroupKey(ps[j]) == r[i].key;
      LowerIsLowered(ps[j].category);
    }
    forall i | 0 <= i < n ensures Lower(a[i].name) == r[i].key {
      CapitalizeInjective(r[i].key, r[i].key);
    }
    forall i, j | 0 <= i < j < n ensures a[i].name != a[j].name {
      CapitalizeInjective(r[i].key, r[j].key);
    }
  }
}
