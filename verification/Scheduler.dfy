/** The pass over the pending withdrawals: sort by amount, send while the confirmed
    balance lasts, keep pending what the unconfirmed balance will cover, and ask the
    cold storage for the rest. */
module Scheduler {
  import opened Types

  newtype int64 = x: int | -0x8000_0000_0000_0000 <= x < 0x8000_0000_0000_0000

  newtype uint64 = x: int | 0 <= x < 0x1_0000_0000_0000_0000

  const INT64_LIMIT: int := 0x8000_0000_0000_0000

  datatype Due = Due(id: TxId, amount: nat)

  function Total(s: seq<Due>): nat {
    if s == [] then 0 else Total(s[..|s| - 1]) + s[|s| - 1].amount
  }

  ghost predicate Sorted(s: seq<Due>) {
    forall i, j :: 0 <= i < j < |s| ==> s[i].amount <= s[j].amount
  }

  /** How many of `s` one pass takes while the running balance stays non-negative. */
  function Taken(s: seq<Due>, budget: int): (k: nat)
    ensures k <= |s|
  {
    if s == [] || s[0].amount > budget then 0 else 1 + Taken(s[1..], budget - s[0].amount)
  }

  /** What a pass decides: withdrawals to send now, to keep pending, to wait for cold
      storage, and the amount cold storage has to provide. */
  datatype Plan = Plan(attempted: seq<Due>, pending: seq<Due>, cold: seq<Due>, need: nat)

  /** One pass over the sum of both balances decides what is kept; the need is in closed form. */
  function PlanFor(s: seq<Due>, confirmed: nat, unconfirmed: nat): Plan {
    TakenMonotone(s, confirmed, confirmed + unconfirmed);
    var k, m := Taken(s, confirmed), Taken(s, confirmed + unconfirmed);
    Plan(s[..k], s[k..m], s[m..], Max(0, Total(s) - confirmed - unconfirmed))
  }

  // ------------------------------------------------------------------- totals

  lemma {:induction false} TotalConcat(a: seq<Due>, b: seq<Due>)
    ensures Total(a + b) == Total(a) + Total(b)
  {
    if b == [] {
      assert a + b == a;
    } else {
      assert (a + b)[..|a + b| - 1] == a + b[..|b| - 1];
      TotalConcat(a, b[..|b| - 1]);
    }
  }

  lemma TotalTake(s: seq<Due>, k: nat)
    requires k < |s|
    ensures Total(s[..k + 1]) == Total(s[..k]) + s[k].amount
    ensures Total(s[..k + 1]) <= Total(s)
  {
    assert s[..k + 1][..k] == s[..k];
    assert s == s[..k + 1] + s[k + 1..];
    TotalConcat(s[..k + 1], s[k + 1..]);
  }

  function Without(s: seq<Due>, k: nat): (r: seq<Due>)
    requires k < |s|
    ensures |r| == |s| - 1
  {
    s[..k] + s[k + 1..]
  }

  lemma TakeOutElement(s: seq<Due>, k: nat)
    requires k < |s|
    ensures multiset(s) == multiset(Without(s, k)) + multiset{s[k]}
  {
    assert s == s[..k] + [s[k]] + s[k + 1..];
  }

  lemma TakeOutAmount(s: seq<Due>, k: nat)
    requires k < |s|
    ensures Total(s) == Total(Without(s, k)) + s[k].amount
  {
    hide Total;
    TotalTake(s, k);
    TotalConcat(s[..k + 1], s[k + 1..]);
    TotalConcat(s[..k], s[k + 1..]);
    assert s == s[..k + 1] + s[k + 1..];
  }

  lemma Cancel(a: multiset<Due>, b: multiset<Due>, x: Due)
    requires a + multiset{x} <= b + multiset{x}
    ensures a <= b
  {
    forall y ensures a[y] <= b[y] {
      assert (a + multiset{x})[y] <= (b + multiset{x})[y];
    }
  }

  lemma Last(s: seq<Due>)
    requires s != []
    ensures multiset(s) == multiset(s[..|s| - 1]) + multiset{s[|s| - 1]}
  {
    assert s == s[..|s| - 1] + [s[|s| - 1]];
  }

  lemma {:induction false} TotalOfMultiset(a: seq<Due>, b: seq<Due>)
    requires multiset(a) == multiset(b)
    ensures Total(a) == Total(b)
  {
    if a == [] {
      assert |b| == |multiset(b)|;
    } else {
      var x := a[|a| - 1];
      assert x in multiset(a);
      var k: nat :| k < |b| && b[k] == x;
      TakeOutElement(b, k);
      TakeOutAmount(b, k);
      Last(a);
      hide Without, Total;
      Cancel(multiset(a[..|a| - 1]), multiset(Without(b, k)), x);
      Cancel(multiset(Without(b, k)), multiset(a[..|a| - 1]), x);
      TotalOfMultiset(a[..|a| - 1], Without(b, k));
    }
  }

  // ------------------------------------------------------------ the greedy pass

  lemma {:induction false} TakenIsMaximalPrefix(s: seq<Due>, budget: int)
    requires budget >= 0
    ensures Total(s[..Taken(s, budget)]) <= budget
    ensures Taken(s, budget) < |s| ==> Total(s[..Taken(s, budget) + 1]) > budget
  {
    if s != [] && s[0].amount <= budget {
      var k := Taken(s[1..], budget - s[0].amount);
      TakenIsMaximalPrefix(s[1..], budget - s[0].amount);
      assert s[..k + 1] == [s[0]] + s[1..][..k];
      TotalConcat([s[0]], s[1..][..k]);
      if k < |s[1..]| {
        assert s[..k + 2] == [s[0]] + s[1..][..k + 1];
        TotalConcat([s[0]], s[1..][..k + 1]);
      }
      assert Total([s[0]]) == s[0].amount by { assert [s[0]][..0] == []; }
    } else if s != [] {
      assert s[..1] == [s[0]] && s[..1][..0] == [];
    }
  }

  lemma {:induction false} TakenMonotone(s: seq<Due>, a: int, b: int)
    requires a <= b
    ensures Taken(s, a) <= Taken(s, b)
  {
    if s != [] && s[0].amount <= a {
      TakenMonotone(s[1..], a - s[0].amount, b - s[0].amount);
    }
  }

  /** A prefix whose total fits, followed by one that does not, is what the pass takes. */
  lemma TakenIs(s: seq<Due>, budget: int, k: nat)
    requires budget >= 0 && k <= |s| && Total(s[..k]) <= budget
    requires k < |s| ==> Total(s[..k + 1]) > budget
    ensures Taken(s, budget) == k
  {
    TakenIsMaximalPrefix(s, budget);
    var t := Taken(s, budget);
    if t < k {
      PrefixMonotone(s, t + 1, k);
    } else if k < t {
      PrefixMonotone(s, k + 1, t);
    }
  }

  lemma PrefixMonotone(s: seq<Due>, i: nat, j: nat)
    requires i <= j <= |s|
    ensures Total(s[..i]) <= Total(s[..j])
  {
    assert s[..j] == s[..i] + s[i..j];
    TotalConcat(s[..i], s[i..j]);
  }

  lemma SortedPrefix(s: seq<Due>, n: nat)
    requires Sorted(s) && n <= |s|
    ensures Sorted(s[..n])
  {
  }

  lemma SelectionWithLargest(s: seq<Due>, sub: seq<Due>, k: nat)
    requires Sorted(s) && s != [] && k < |sub| && sub[k] == s[|s| - 1]
    requires |sub| <= |s| && Total(s[..|sub| - 1]) <= Total(Without(sub, k))
    ensures Total(s[..|sub|]) <= Total(sub)
  {
    hide Total, Without;
    TakeOutAmount(sub, k);
    TotalTake(s, |sub| - 1);
    assert s[|sub| - 1].amount <= s[|s| - 1].amount;
  }

  lemma DropUnused(s: seq<Due>, sub: seq<Due>)
    requires s != [] && multiset(sub) <= multiset(s) && s[|s| - 1] !in multiset(sub)
    ensures multiset(sub) <= multiset(s[..|s| - 1])
  {
    Last(s);
    var m, x := multiset(s[..|s| - 1]), s[|s| - 1];
    forall y ensures multiset(sub)[y] <= m[y] {
      assert multiset(sub)[y] <= (m + multiset{x})[y];
    }
  }

  lemma DropUsed(s: seq<Due>, sub: seq<Due>, k: nat)
    requires s != [] && multiset(sub) <= multiset(s) && k < |sub| && sub[k] == s[|s| - 1]
    ensures multiset(Without(sub, k)) <= multiset(s[..|s| - 1])
  {
    hide Without;
    Last(s);
    TakeOutElement(sub, k);
    Cancel(multiset(Without(sub, k)), multiset(s[..|s| - 1]), s[|s| - 1]);
  }

  /** Among all selections of the same size the smallest amounts have the smallest total. */
  lemma {:induction false} SmallestFirst(s: seq<Due>, sub: seq<Due>)
    requires Sorted(s) && multiset(sub) <= multiset(s)
    ensures |sub| <= |s| && Total(s[..|sub|]) <= Total(sub)
  {
    hide Total, Sorted, Without;
    if s == [] {
      assert multiset(sub) == multiset{};
      assert |sub| == |multiset(sub)|;
      assert s[..0] == sub;
    } else {
      var n := |s| - 1;
      SortedPrefix(s, n);
      if s[n] in multiset(sub) {
        var k: nat :| k < |sub| && sub[k] == s[n];
        DropUsed(s, sub, k);
        SmallestFirst(s[..n], Without(sub, k));
        assert s[..n][..|sub| - 1] == s[..|sub| - 1];
        SelectionWithLargest(s, sub, k);
      } else {
        DropUnused(s, sub);
        SmallestFirst(s[..n], sub);
        assert s[..n][..|sub|] == s[..|sub|];
      }
    }
  }

  /** No selection of the pending withdrawals that fits the budget is larger. */
  lemma GreedyIsOptimal(s: seq<Due>, budget: nat, sub: seq<Due>)
    requires Sorted(s) && multiset(sub) <= multiset(s) && Total(sub) <= budget
    ensures |sub| <= Taken(s, budget)
  {
    SmallestFirst(s, sub);
    TakenIsMaximalPrefix(s, budget);
    var k := Taken(s, budget);
    if k < |sub| {
      PrefixMonotone(s, k + 1, |sub|);
    }
  }

  lemma PlanIsPartition(s: seq<Due>, confirmed: nat, unconfirmed: nat)
    ensures var p := PlanFor(s, confirmed, unconfirmed);
            && p.attempted + p.pending + p.cold == s
            && p.need == Max(0, Total(s) - confirmed - unconfirmed)
            && Total(p.attempted) <= confirmed
            && Total(p.attempted) + Total(p.pending) <= confirmed + unconfirmed
            && |p.attempted| == Taken(s, confirmed)
            && |p.attempted| + |p.pending| == Taken(s, confirmed + unconfirmed)
            && (p.need == 0 <==> p.cold == [])
  {
    hide Taken, Total;
    TakenMonotone(s, confirmed, confirmed + unconfirmed);
    var k, m := Taken(s, confirmed), Taken(s, confirmed + unconfirmed);
    assert s[..m] == s[..k] + s[k..m];
    TotalConcat(s[..k], s[k..m]);
    TakenIsMaximalPrefix(s, confirmed);
    TakenIsMaximalPrefix(s, confirmed + unconfirmed);
    if m < |s| {
      PrefixMonotone(s, m + 1, |s|);
    }
    assert s[..|s|] == s;
  }

  /** What a completed pass achieves, whatever order equal amounts were sorted into. */
  lemma PlanIsOptimal(rows: seq<Due>, s: seq<Due>, confirmed: nat, unconfirmed: nat)
    requires Sorted(s) && multiset(s) == multiset(rows)
    ensures var p := PlanFor(s, confirmed, unconfirmed);
            && multiset(p.attempted) + multiset(p.pending) + multiset(p.cold) == multiset(rows)
            && Total(p.attempted) <= confirmed
            && Total(p.attempted) + Total(p.pending) <= confirmed + unconfirmed
            && (forall sub :: multiset(sub) <= multiset(rows) && Total(sub) <= confirmed ==>
                  |sub| <= |p.attempted|)
            && (forall sub :: multiset(sub) <= multiset(rows) && Total(sub) <= confirmed + unconfirmed ==>
                  |sub| <= |p.attempted| + |p.pending|)
            && p.need == Max(0, Total(rows) - confirmed - unconfirmed)
            && (p.need == 0 <==> p.cold == [])
  {
    hide Taken, Total, Sorted, PlanFor;
    var p := PlanFor(s, confirmed, unconfirmed);
    PlanIsPartition(s, confirmed, unconfirmed);
    TotalOfMultiset(s, rows);
    forall sub: seq<Due> | multiset(sub) <= multiset(rows) && Total(sub) <= confirmed ensures |sub| <= |p.attempted| {
      GreedyIsOptimal(s, confirmed, sub);
    }
    forall sub: seq<Due> | multiset(sub) <= multiset(rows) && Total(sub) <= confirmed + unconfirmed
      ensures |sub| <= |p.attempted| + |p.pending|
    {
      GreedyIsOptimal(s, confirmed + unconfirmed, sub);
    }
    ThreeParts(p.attempted, p.pending, p.cold);
  }

  lemma ThreeParts(a: seq<Due>, b: seq<Due>, c: seq<Due>)
    ensures multiset(a + b + c) == multiset(a) + multiset(b) + multiset(c)
  {
  }

  // ------------------------------------------------------------- the algorithm

  method SwapWithPrevious(a: array<Due>, j: nat)
    requires 0 < j < a.Length
    modifies a
    ensures a[..] == old(a[..])[j - 1 := old(a[j])][j := old(a[j - 1])]
    ensures multiset(a[..]) == old(multiset(a[..]))
  {
    a[j - 1], a[j] := a[j], a[j - 1];
  }

  /** Element i sinks into the sorted prefix before it. */
  method Sink(a: array<Due>, i: nat)
    requires i < a.Length
    requires forall p, q :: 0 <= p < q < i ==> a[p].amount <= a[q].amount
    modifies a
    ensures forall p, q :: 0 <= p < q < i + 1 ==> a[p].amount <= a[q].amount
    ensures multiset(a[..]) == old(multiset(a[..]))
  {
    var j := i;
    while j > 0 && a[j].amount < a[j - 1].amount
      invariant 0 <= j <= i
      invariant forall p, q :: 0 <= p < q <= i && q != j ==> a[p].amount <= a[q].amount
      invariant multiset(a[..]) == old(multiset(a[..]))
    {
      ghost var before := a[..];
      SwapWithPrevious(a, j);
      assert forall p :: 0 <= p < a.Length ==>
        a[p] == if p == j then before[j - 1] else if p == j - 1 then before[j] else before[p];
      j := j - 1;
    }
  }

  method SortByAmount(a: array<Due>)
    modifies a
    ensures Sorted(a[..])
    ensures multiset(a[..]) == old(multiset(a[..]))
  {
    var i := 0;
    while i < a.Length
      invariant 0 <= i <= a.Length
      invariant forall p, q :: 0 <= p < q < i ==> a[p].amount <= a[q].amount
      invariant multiset(a[..]) == old(multiset(a[..]))
    {
      Sink(a, i);
      i := i + 1;
    }
  }

  /** When the list does not end before the balances do, something is missing. */
  lemma SomethingIsMissing(s: seq<Due>, budget: nat)
    requires Taken(s, budget) < |s|
    ensures Total(s) > budget
  {
    hide Total;
    TakenIsMaximalPrefix(s, budget);
    PrefixMonotone(s, Taken(s, budget) + 1, |s|);
    assert s[..|s|] == s;
  }

  lemma EverythingKept(s: seq<Due>, budget: nat)
    requires Taken(s, budget) == |s|
    ensures Total(s) <= budget
  {
    hide Total;
    TakenIsMaximalPrefix(s, budget);
    assert s[..|s|] == s;
  }

  lemma PassReached(s: seq<Due>, budget: int, i: nat)
    requires i < |s| && 0 <= budget && Total(s[..i + 1]) <= budget
    ensures i < Taken(s, budget)
  {
    TakenIsMaximalPrefix(s, budget);
    if Taken(s, budget) <= i {
      PrefixMonotone(s, Taken(s, budget) + 1, i + 1);
    }
  }
}
