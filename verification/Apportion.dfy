/** Splitting turns and dollars over requests: `_clamp_turns_without_leak` and `quote_shares`. */
module Apportion {
  import opened Sorting

  /** Turns and dollars set aside for one call. */
  datatype Lease = Lease(maxTurns: int, maxCostUsd: real)

  /** One request with its place, the pair the leftover ranking sorts. */
  datatype Ranked = Ranked(value: int, index: nat)

  /** The sort key `(-requested[index], index)`: larger requests first, ties by position. */
  predicate RanksBefore(a: Ranked, b: Ranked) {
    a.value > b.value || (a.value == b.value && a.index <= b.index)
  }

  ghost predicate AllPositive(requested: seq<int>) {
    forall i | 0 <= i < |requested| :: requested[i] >= 1
  }

  function Sum(xs: seq<int>): int {
    if xs == [] then 0 else Sum(xs[..|xs| - 1]) + xs[|xs| - 1]
  }

  function Enumerated(requested: seq<int>): (r: seq<Ranked>)
    ensures |r| == |requested|
    ensures forall i | 0 <= i < |r| :: r[i] == Ranked(requested[i], i)
  {
    seq(|requested|, i requires 0 <= i < |requested| => Ranked(requested[i], i))
  }

  function RankDescending(requested: seq<int>): (r: seq<Ranked>)
    ensures |r| == |requested|
  {
    Sort(Enumerated(requested), RanksBefore)
  }

  predicate Within(order: seq<Ranked>, n: nat) {
    forall k | 0 <= k < |order| :: order[k].index < n
  }

  predicate NoRepeats(order: seq<Ranked>) {
    forall a, b | 0 <= a < b < |order| :: order[a].index != order[b].index
  }

  /** The slice `order[:k]` of a count that is never negative. */
  function Front(order: seq<Ranked>, k: int): (r: seq<Ranked>)
    ensures r <= order && |r| == if k < 0 then 0 else if k > |order| then |order| else k
  {
    order[..if k < 0 then 0 else if k > |order| then |order| else k]
  }

  /** `granted` with one more turn at every listed place. */
  function Bumped(granted: seq<int>, order: seq<Ranked>): (r: seq<int>)
    requires Within(order, |granted|)
    ensures |r| == |granted|
  {
    if order == [] then granted
    else
      var g := Bumped(granted, order[..|order| - 1]);
      var i := order[|order| - 1].index;
      g[i := g[i] + 1]
  }

  /** A product by repeated addition; TimesIs says that is what it is. */
  function Times(a: int, n: nat): int {
    if n == 0 then 0 else Times(a, n - 1) + a
  }

  /** Floor division by repeated subtraction; FloorDivIs says that is what it is. */
  function FloorDiv(x: int, d: nat): int
    requires d > 0
    decreases x < 0, if x < 0 then -x else x
  {
    if x < 0 then FloorDiv(x + d, d) - 1 else if x < d then 0 else FloorDiv(x - d, d) + 1
  }

  lemma {:induction false} TimesIs(a: int, n: nat)
    ensures Times(a, n) == a * n
  {
    if n > 0 {
      TimesIs(a, n - 1);
    }
  }

  lemma {:induction false} FloorDivRange(x: int, d: nat)
    requires d > 0
    ensures 0 <= x - Times(FloorDiv(x, d), d) < d
    decreases x < 0, if x < 0 then -x else x
  {
    if x < 0 {
      FloorDivRange(x + d, d);
      TimesAdd(FloorDiv(x + d, d), -1, d);
      TimesIs(-1, d);
    } else if x < d {
      TimesIs(0, d);
    } else {
      FloorDivRange(x - d, d);
      TimesAdd(FloorDiv(x - d, d), 1, d);
      TimesIs(1, d);
    }
  }

  lemma FloorDivIs(x: int, d: nat)
    requires d > 0
    ensures FloorDiv(x, d) == x / d
  {
    FloorDivRange(x, d);
    TimesIs(FloorDiv(x, d), d);
    SameQuotient(FloorDiv(x, d), x / d, x % d, x, d);
  }

  lemma SameQuotient(p: int, q: int, r: int, x: int, d: nat)
    requires x == d * q + r && 0 <= r < d
    requires 0 <= x - p * d < d
    ensures p == q
  {
    assert p <= q - 1 ==> p * d <= (q - 1) * d;
    assert q <= p - 1 ==> q * d <= (p - 1) * d;
  }

  /** The floor of `((value - 1) * spare) / over`, on top of the one turn everybody gets. */
  function FloorGrant(value: int, spare: nat, over: nat): int
    requires over > 0
  {
    1 + FloorDiv(Times(value - 1, spare), over)
  }

  lemma FloorGrantIs(value: int, spare: nat, over: nat)
    requires over > 0
    ensures FloorGrant(value, spare, over) == 1 + ((value - 1) * spare) / over
  {
    TimesIs(value - 1, spare);
    FloorDivIs(Times(value - 1, spare), over);
  }

  /** What that division loses, in units of 1/over of a turn. */
  function LostTurn(value: int, spare: nat, over: nat): int
    requires over > 0
  {
    Times(value - 1, spare) - Times(FloorGrant(value, spare, over) - 1, over)
  }

  function FloorGrants(requested: seq<int>, spare: nat, over: nat): (r: seq<int>)
    requires over > 0
    ensures |r| == |requested|
    ensures forall i | 0 <= i < |r| :: r[i] == FloorGrant(requested[i], spare, over)
  {
    seq(|requested|, i requires 0 <= i < |requested| => FloorGrant(requested[i], spare, over))
  }

  function Zeros(n: nat): (r: seq<int>)
    ensures |r| == n && forall i | 0 <= i < n :: r[i] == 0
  {
    seq(n, _ => 0)
  }

  /** Everybody's floor share of a pool that covers the count but not the total. */
  function Floors(requested: seq<int>, available: nat): (r: seq<int>)
    requires |requested| <= available < Sum(requested)
    ensures |r| == |requested|
  {
    FloorGrants(requested, available - |requested|, Sum(requested) - |requested|)
  }

  /** The places that receive the turns the floors left over. */
  function LeftoverPlaces(requested: seq<int>, available: nat): (r: seq<Ranked>)
    requires |requested| <= available < Sum(requested)
    ensures Within(r, |requested|) && NoRepeats(r)
  {
    RankFacts(requested);
    Front(RankDescending(requested), available - Sum(Floors(requested, available)))
  }

  /** The places that get a turn when there are fewer turns than requests. */
  function FirstPlaces(requested: seq<int>, available: nat): (r: seq<Ranked>)
    ensures Within(r, |requested|) && NoRepeats(r)
    ensures |r| == if available <= |requested| then available else |requested|
  {
    RankFacts(requested);
    Front(RankDescending(requested), available)
  }

  function Clamp(requested: seq<int>, available: nat): (r: seq<int>)
    ensures |r| == |requested|
  {
    if Sum(requested) <= available then requested
    else if |requested| > available then Bumped(Zeros(|requested|), FirstPlaces(requested, available))
    else Bumped(Floors(requested, available), LeftoverPlaces(requested, available))
  }

  /** One turn each for the listed places, the rest get nothing. */
  method GrantOneEach(count: nat, order: seq<Ranked>) returns (granted: seq<int>)
    requires Within(order, count) && NoRepeats(order)
    ensures granted == Bumped(Zeros(count), order)
  {
    granted := Zeros(count);
    for k := 0 to |order|
      invariant |granted| == count
      invariant granted == Bumped(Zeros(count), order[..k])
    {
      BumpedAt(Zeros(count), order[..k], order[k].index);
      assert order[..k + 1][..k] == order[..k];
      granted := granted[order[k].index := 1];
    }
    assert order[..|order|] == order;
  }

  /** The leftover turns go back one by one along the ranking. */
  method ReturnLeftover(floors: seq<int>, order: seq<Ranked>) returns (granted: seq<int>)
    requires Within(order, |floors|)
    ensures granted == Bumped(floors, order)
  {
    granted := floors;
    for k := 0 to |order|
      invariant |granted| == |floors|
      invariant granted == Bumped(floors, order[..k])
    {
      assert order[..k + 1][..k] == order[..k];
      granted := granted[order[k].index := granted[order[k].index] + 1];
    }
    assert order[..|order|] == order;
  }

  /** The loop form: the granted list is filled, then updated in place from the ranking's front. */
  method ClampTurnsWithoutLeak(requested: seq<int>, available: nat) returns (granted: seq<int>)
    ensures granted == Clamp(requested, available)
  {
    if Sum(requested) <= available {
      granted := requested;
    } else if |requested| > available {
      granted := GrantOneEach(|requested|, FirstPlaces(requested, available));
    } else {
      granted := ReturnLeftover(Floors(requested, available), LeftoverPlaces(requested, available));
    }
  }

  function DollarsFor(granted: int, turns: int, usd: real): real {
    if turns == 0 then 0.0 else usd * granted as real / turns as real
  }

  /** The leases a grant list stands for when the dollars follow the turns. */
  function Priced(granted: seq<int>, turns: int, usd: real): (r: seq<Lease>)
    ensures |r| == |granted|
    ensures forall i | 0 <= i < |r| :: r[i] == Lease(granted[i], DollarsFor(granted[i], turns, usd))
  {
    seq(|granted|, i requires 0 <= i < |granted| => Lease(granted[i], DollarsFor(granted[i], turns, usd)))
  }

  /** `quote_shares`: granted turns, and the dollars split in proportion to them. */
  function QuoteShares(requested: seq<int>, availableTurns: int, availableUsd: real): (r: seq<Lease>)
    ensures |r| == |requested|
  {
    if requested == [] then []
    else
      var granted := Clamp(requested, if availableTurns < 0 then 0 else availableTurns);
      Priced(granted, Sum(granted), availableUsd)
  }

  // ----- the ranking

  lemma RankIsPreorder()
    ensures TotalPreorder(RanksBefore)
  {
  }

  /** The ranking lists every place exactly once, in key order. */
  lemma RankFacts(requested: seq<int>)
    ensures var order := RankDescending(requested);
      && |order| == |requested|
      && Within(order, |requested|)
      && Ordered(order, RanksBefore)
      && (forall k | 0 <= k < |order| :: order[k].value == requested[order[k].index])
      && NoRepeats(order)
      && (forall i | 0 <= i < |requested| :: Ranked(requested[i], i) in order)
  {
    var e, order := Enumerated(requested), RankDescending(requested);
    RankIsPreorder();
    SortOrders(e, RanksBefore);
    SortMembers(e, RanksBefore);
    SortDistinct(e, RanksBefore);
    forall k | 0 <= k < |order| ensures order[k].index < |requested| && order[k].value == requested[order[k].index] {
      assert order[k] in order;
      assert order[k] in e;
    }
    forall i | 0 <= i < |requested| ensures Ranked(requested[i], i) in order {
      assert e[i] in e;
    }
  }

  predicate Lists(order: seq<Ranked>, i: nat) {
    exists k | 0 <= k < |order| :: order[k].index == i
  }

  lemma {:induction false} BumpedAt(granted: seq<int>, order: seq<Ranked>, i: nat)
    requires Within(order, |granted|) && i < |granted|
    requires NoRepeats(order)
    ensures Bumped(granted, order)[i] == granted[i] + if Lists(order, i) then 1 else 0
  {
    if order != [] {
      var n := |order| - 1;
      BumpedAt(granted, order[..n], i);
      if order[n].index == i {
        assert !Lists(order[..n], i);
      } else if Lists(order, i) {
        var k :| 0 <= k < |order| && order[k].index == i;
        assert order[..n][k].index == i;
      } else {
        assert forall k | 0 <= k < n :: order[..n][k] == order[k];
      }
    }
  }

  lemma {:induction false} SumUpdate(xs: seq<int>, i: nat, v: int)
    requires i < |xs|
    ensures Sum(xs[i := v]) == Sum(xs) - xs[i] + v
  {
    var n := |xs| - 1;
    if i == n {
      assert xs[i := v][..n] == xs[..n];
    } else {
      assert xs[i := v][..n] == xs[..n][i := v];
      SumUpdate(xs[..n], i, v);
    }
  }

  lemma {:induction false} BumpedSum(granted: seq<int>, order: seq<Ranked>)
    requires Within(order, |granted|)
    ensures Sum(Bumped(granted, order)) == Sum(granted) + |order|
  {
    if order != [] {
      var n := |order| - 1;
      BumpedSum(granted, order[..n]);
      var g := Bumped(granted, order[..n]);
      SumUpdate(g, order[n].index, g[order[n].index] + 1);
    }
  }

  // ----- the leftover is smaller than the number of requests above one

  /** What the floors lose: the remainders of all the divisions. */
  function Lost(order: seq<Ranked>, spare: nat, over: nat): int
    requires over > 0
  {
    if order == [] then 0
    else Lost(order[1..], spare, over) + LostTurn(order[0].value, spare, over)
  }

  lemma {:induction false} LostInsert(x: Ranked, order: seq<Ranked>, spare: nat, over: nat)
    requires over > 0
    ensures Lost(Insert(x, order, RanksBefore), spare, over)
         == Lost(order, spare, over) + LostTurn(x.value, spare, over)
  {
    if order == [] || RanksBefore(x, order[0]) {
      assert ([x] + order)[1..] == order;
    } else {
      LostInsert(x, order[1..], spare, over);
      var rest := Insert(x, order[1..], RanksBefore);
      assert ([order[0]] + rest)[1..] == rest;
    }
  }

  lemma {:induction false} LostSort(xs: seq<Ranked>, spare: nat, over: nat)
    requires over > 0
    ensures Lost(Sort(xs, RanksBefore), spare, over) == Lost(xs, spare, over)
  {
    if xs != [] {
      LostSort(xs[1..], spare, over);
      LostInsert(xs[0], Sort(xs[1..], RanksBefore), spare, over);
    }
  }

  lemma {:induction false} LostAppend(xs: seq<Ranked>, x: Ranked, spare: nat, over: nat)
    requires over > 0
    ensures Lost(xs + [x], spare, over) == Lost(xs, spare, over) + LostTurn(x.value, spare, over)
  {
    if xs != [] {
      LostAppend(xs[1..], x, spare, over);
      assert (xs + [x])[1..] == xs[1..] + [x];
    } else {
      assert [x][1..] == [];
      assert xs + [x] == [x];
    }
  }

  lemma LostTurnRange(value: int, spare: nat, over: nat)
    requires over > 0
    ensures 0 <= LostTurn(value, spare, over) < over
    ensures value == 1 ==> LostTurn(value, spare, over) == 0
  {
    FloorDivRange(Times(value - 1, spare), over);
    TimesIs(0, spare);
    TimesIs(0, over);
  }

  lemma LostTurnIs(value: int, spare: nat, over: nat)
    requires over > 0
    ensures Times(FloorGrant(value, spare, over) - 1, over) + LostTurn(value, spare, over) == Times(value - 1, spare)
  {
  }

  lemma {:induction false} TimesAdd(a: int, b: int, n: nat)
    ensures Times(a + b, n) == Times(a, n) + Times(b, n)
  {
    if n > 0 {
      TimesAdd(a, b, n - 1);
    }
  }

  lemma {:induction false} TimesMono(a: int, b: int, n: nat)
    requires a <= b
    ensures Times(a, n) <= Times(b, n)
  {
    if n > 0 {
      TimesMono(a, b, n - 1);
    }
  }

  /** Summed over all requests, quotient times divisor plus what was lost gives back the dividend. */
  lemma {:induction false} FloorsPlusLost(requested: seq<int>, spare: nat, over: nat)
    requires over > 0
    ensures Times(Sum(FloorGrants(requested, spare, over)) - |requested|, over) + Lost(Enumerated(requested), spare, over)
         == Times(Sum(requested) - |requested|, spare)
  {
    if requested == [] {
      hide Times, FloorGrant, LostTurn;
      assert Sum(FloorGrants(requested, spare, over)) == 0 && Sum(requested) == 0 && Lost(Enumerated(requested), spare, over) == 0;
      TimesIs(0, over);
      TimesIs(0, spare);
    } else {
      hide *;
      OneMoreRanked(requested);
      var n := |requested| - 1;
      var front, v := requested[..n], requested[n];
      FloorsPlusLost(front, spare, over);
      OneMoreFloor(requested, spare, over);
      LostAppend(Enumerated(front), Ranked(v, n), spare, over);
      LostTurnIs(v, spare, over);
      TimesAdd(Sum(FloorGrants(front, spare, over)) - n, FloorGrant(v, spare, over) - 1, over);
      TimesAdd(Sum(front) - n, v - 1, spare);
    }
  }

  lemma OneMoreRanked(requested: seq<int>)
    requires requested != []
    ensures var n := |requested| - 1; Enumerated(requested) == Enumerated(requested[..n]) + [Ranked(requested[n], n)]
  {
    hide Enumerated;
  }

  lemma OneMoreFloor(requested: seq<int>, spare: nat, over: nat)
    requires over > 0 && requested != []
    ensures var n := |requested| - 1;
      && Sum(FloorGrants(requested, spare, over)) - |requested|
         == (Sum(FloorGrants(requested[..n], spare, over)) - n) + (FloorGrant(requested[n], spare, over) - 1)
      && Sum(requested) - |requested| == (Sum(requested[..n]) - n) + (requested[n] - 1)
  {
    hide *;
    var n := |requested| - 1;
    assert FloorGrants(requested, spare, over)[..n] == FloorGrants(requested[..n], spare, over);
    SumLast(FloorGrants(requested, spare, over));
    SumLast(requested);
  }

  lemma SumLast(xs: seq<int>)
    requires xs != []
    ensures Sum(xs) == Sum(xs[..|xs| - 1]) + xs[|xs| - 1]
  {
  }

  /** With the tail of the ranking at one turn each, only the head loses anything, less than `over` apiece. */
  lemma {:induction false} LostBound(order: seq<Ranked>, j: nat, spare: nat, over: nat)
    requires over > 0 && j <= |order|
    requires forall k | j <= k < |order| :: order[k].value == 1
    ensures 0 <= Lost(order, spare, over) <= Times(j, over - 1)
  {
    TimesIs(0, over - 1);
    if order != [] {
      LostTurnRange(order[0].value, spare, over);
      if j == 0 {
        LostBound(order[1..], 0, spare, over);
      } else {
        LostBound(order[1..], j - 1, spare, over);
        TimesAdd(j - 1, 1, over - 1);
        TimesIs(1, over - 1);
      }
    }
  }

  /** The hard step: the leftover is never negative, and every place that receives it asked for more than one. */
  lemma LeftoverGoesAboveOne(requested: seq<int>, available: nat)
    requires AllPositive(requested)
    requires |requested| <= available < Sum(requested)
    ensures |LeftoverPlaces(requested, available)| == available - Sum(Floors(requested, available))
    ensures forall i | 0 <= i < |requested| && Lists(LeftoverPlaces(requested, available), i) :: requested[i] > 1
  {
    hide Floors;
    var remainder := available - Sum(Floors(requested, available));
    var order := RankDescending(requested);
    RankFacts(requested);
    RemainderAtMost(requested, available, |order|);
    forall k | 0 <= k < remainder ensures order[k].value > 1 {
      assert order[k].value >= 1;
      if order[k].value == 1 {
        forall m | k <= m < |order| ensures order[m].value == 1 {
          assert m == k || RanksBefore(order[k], order[m]);
        }
        RemainderAtMost(requested, available, k);
        assert false;
      }
    }
  }

  /** If the ranking is all ones from place `j` on, at most `j` turns are left over. */
  lemma RemainderAtMost(requested: seq<int>, available: nat, j: nat)
    requires |requested| <= available < Sum(requested)
    requires j <= |requested|
    requires forall k | j <= k < |requested| :: RankDescending(requested)[k].value == 1
    ensures 0 <= available - Sum(Floors(requested, available)) <= j
  {
    hide Floors, Times, Lost, RankDescending, Sum;
    var spare, over := available - |requested|, Sum(requested) - |requested|;
    FloorsBalance(requested, available);
    LostBound(RankDescending(requested), j, spare, over);
    Squeeze(available - Sum(Floors(requested, available)), spare, j, over, Lost(RankDescending(requested), spare, over));
  }

  lemma FloorsBalance(requested: seq<int>, available: nat)
    requires |requested| <= available < Sum(requested)
    ensures var spare, over := available - |requested|, Sum(requested) - |requested|;
      Times(spare - (available - Sum(Floors(requested, available))), over) + Lost(RankDescending(requested), spare, over)
      == Times(over, spare)
  {
    hide Times, Lost, Sum;
    var spare, over := available - |requested|, Sum(requested) - |requested|;
    FloorsPlusLost(requested, spare, over);
    LostSort(Enumerated(requested), spare, over);
    assert spare - (available - Sum(Floors(requested, available)))
        == Sum(FloorGrants(requested, spare, over)) - |requested|;
  }

  /** A whole number of `over`s that fits in `j * (over - 1)` is at most `j`. */
  lemma Squeeze(remainder: int, spare: nat, j: nat, over: nat, lost: int)
    requires over > 0 && 0 <= lost <= Times(j, over - 1)
    requires Times(spare - remainder, over) + lost == Times(over, spare)
    ensures 0 <= remainder <= j
  {
    TimesIs(over, spare);
    TimesIs(spare, over);
    TimesAdd(spare - remainder, remainder, over);
    TimesIs(-1, over);
    if remainder <= -1 {
      TimesMono(remainder, -1, over);
    }
    if remainder >= j + 1 {
      TimesMono(j + 1, remainder, over);
      TimesAdd(j, 1, over);
      TimesIs(1, over);
    }
  }

  // ----- what a split promises

  lemma {:induction false} SumAtLeastCount(requested: seq<int>)
    requires AllPositive(requested)
    ensures Sum(requested) >= |requested|
  {
    if requested != [] {
      SumAtLeastCount(requested[..|requested| - 1]);
    }
  }

  lemma {:induction false} ZerosSum(n: nat)
    ensures Sum(Zeros(n)) == 0
  {
    if n > 0 {
      assert Zeros(n)[..n - 1] == Zeros(n - 1);
      ZerosSum(n - 1);
    }
  }

  /** A floor share is at least one turn and, below the full pool, strictly under a request above one. */
  lemma FloorRange(value: int, spare: nat, over: nat)
    requires value >= 1 && spare < over
    ensures 1 <= FloorGrant(value, spare, over) <= value
    ensures value > 1 ==> FloorGrant(value, spare, over) < value
  {
    var q, d := FloorGrant(value, spare, over) - 1, value - 1;
    LostTurnRange(value, spare, over);
    TimesMono(0, d, spare);
    TimesIs(0, spare);
    TimesIs(-1, over);
    if q <= -1 {
      TimesMono(q, -1, over);
    }
    if q >= d {
      TimesMono(d, q, over);
      TimesLess(d, spare, over);
    }
  }

  lemma {:induction false} TimesLess(d: nat, m: nat, n: nat)
    requires m < n
    ensures Times(d, m) <= Times(d, n)
    ensures d > 0 ==> Times(d, m) < Times(d, n)
  {
    if m < n - 1 {
      TimesLess(d, m, n - 1);
    }
  }

  lemma ScarceExact(requested: seq<int>, available: nat)
    requires AllPositive(requested) && available < |requested|
    ensures var granted := Bumped(Zeros(|requested|), FirstPlaces(requested, available));
      Sum(granted) == available && forall i | 0 <= i < |requested| :: 0 <= granted[i] <= 1
  {
    hide FirstPlaces;
    var front := FirstPlaces(requested, available);
    ZerosSum(|requested|);
    BumpedSum(Zeros(|requested|), front);
    forall i | 0 <= i < |requested| ensures 0 <= Bumped(Zeros(|requested|), front)[i] <= 1 {
      BumpedAt(Zeros(|requested|), front, i);
    }
  }

  lemma FloorsRange(requested: seq<int>, available: nat, i: nat)
    requires AllPositive(requested) && i < |requested|
    requires |requested| <= available < Sum(requested)
    ensures 1 <= Floors(requested, available)[i] <= requested[i]
    ensures requested[i] > 1 ==> Floors(requested, available)[i] < requested[i]
  {
    FloorRange(requested[i], available - |requested|, Sum(requested) - |requested|);
  }

  lemma AmpleExact(requested: seq<int>, available: nat)
    requires AllPositive(requested)
    requires |requested| <= available < Sum(requested)
    ensures var granted := Bumped(Floors(requested, available), LeftoverPlaces(requested, available));
      Sum(granted) == available && forall i | 0 <= i < |requested| :: 1 <= granted[i] <= requested[i]
  {
    LeftoverGoesAboveOne(requested, available);
    hide Floors;
    hide LeftoverPlaces;
    var floors, front := Floors(requested, available), LeftoverPlaces(requested, available);
    BumpedSum(floors, front);
    forall i | 0 <= i < |requested| ensures 1 <= Bumped(floors, front)[i] <= requested[i] {
      BumpedAt(floors, front, i);
      FloorsRange(requested, available, i);
    }
  }

  /**
   * No turn leaks and none is invented: the grants add up to the smaller of what was asked and what
   * there is, nobody gets more than asked, and everybody gets one when there are enough turns.
   */
  lemma ClampExact(requested: seq<int>, available: nat)
    requires AllPositive(requested)
    ensures var granted := Clamp(requested, available);
      && Sum(granted) == (if Sum(requested) <= available then Sum(requested) else available)
      && (forall i | 0 <= i < |requested| :: 0 <= granted[i] <= requested[i])
      && (available >= |requested| ==> forall i | 0 <= i < |requested| :: granted[i] >= 1)
  {
    hide Floors;
    hide LeftoverPlaces;
    hide FirstPlaces;
    if Sum(requested) > available {
      if |requested| > available {
        ScarceExact(requested, available);
      } else {
        AmpleExact(requested, available);
      }
    }
  }

  lemma FloorMonotone(a: int, b: int, spare: nat, over: nat)
    requires over > 0 && a >= b
    ensures FloorGrant(a, spare, over) >= FloorGrant(b, spare, over)
  {
    LostTurnRange(a, spare, over);
    LostTurnRange(b, spare, over);
    TimesMono(b - 1, a - 1, spare);
    var p, q := FloorGrant(a, spare, over) - 1, FloorGrant(b, spare, over) - 1;
    if p <= q - 1 {
      TimesMono(p + 1, q, over);
      TimesAdd(p, 1, over);
      TimesIs(1, over);
    }
  }

  /** A place listed in the ranking's front drags every better-ranked place with it. */
  lemma FrontIsClosed(requested: seq<int>, n: int, i: nat, j: nat)
    requires i < |requested| && j < |requested| && i != j
    requires RanksBefore(Ranked(requested[i], i), Ranked(requested[j], j))
    requires Lists(Front(RankDescending(requested), n), j)
    ensures Lists(Front(RankDescending(requested), n), i)
  {
    var order, front := RankDescending(requested), Front(RankDescending(requested), n);
    RankFacts(requested);
    var b :| 0 <= b < |front| && front[b].index == j;
    var a :| 0 <= a < |order| && order[a] == Ranked(requested[i], i);
    assert order[b] == front[b] && order[b] == Ranked(requested[j], j);
    assert a > b ==> RanksBefore(order[b], order[a]);
    assert front[a].index == i;
  }

  /** A larger request, or an equal one that comes first, never gets less. */
  lemma ClampOrdered(requested: seq<int>, available: nat, i: nat, j: nat)
    requires AllPositive(requested)
    requires i < |requested| && j < |requested| && i != j
    requires RanksBefore(Ranked(requested[i], i), Ranked(requested[j], j))
    ensures Clamp(requested, available)[i] >= Clamp(requested, available)[j]
  {
    if Sum(requested) > available {
      if |requested| > available {
        ListedTogether(requested, available, i, j);
        BumpedOrdered(Zeros(|requested|), FirstPlaces(requested, available), i, j);
      } else {
        FloorMonotone(requested[i], requested[j], available - |requested|, Sum(requested) - |requested|);
        ListedTogether(requested, available - Sum(Floors(requested, available)), i, j);
        BumpedOrdered(Floors(requested, available), LeftoverPlaces(requested, available), i, j);
      }
    }
  }

  lemma ListedTogether(requested: seq<int>, n: int, i: nat, j: nat)
    requires i < |requested| && j < |requested| && i != j
    requires RanksBefore(Ranked(requested[i], i), Ranked(requested[j], j))
    ensures Lists(Front(RankDescending(requested), n), j) ==> Lists(Front(RankDescending(requested), n), i)
  {
    if Lists(Front(RankDescending(requested), n), j) {
      FrontIsClosed(requested, n, i, j);
    }
  }

  lemma BumpedOrdered(base: seq<int>, front: seq<Ranked>, i: nat, j: nat)
    requires Within(front, |base|) && NoRepeats(front)
    requires i < |base| && j < |base| && base[i] >= base[j]
    requires Lists(front, j) ==> Lists(front, i)
    ensures Bumped(base, front)[i] >= Bumped(base, front)[j]
  {
    BumpedAt(base, front, i);
    BumpedAt(base, front, j);
  }

  /** In units of 1/over of a turn, `granted` is less than one under and at most one over the exact share. */
  ghost predicate WithinOneTurn(granted: int, value: int, spare: nat, over: nat) {
    var distance := Times(granted, over) - (over + Times(value - 1, spare));
    0 < distance + over && distance <= over
  }

  /** Short of the total but not of the count, each grant is within one turn of its exact proportional share. */
  lemma ClampProportional(requested: seq<int>, available: nat, i: nat)
    requires i < |requested| && requested[i] >= 1
    requires |requested| <= available < Sum(requested)
    ensures WithinOneTurn(Clamp(requested, available)[i], requested[i], available - |requested|, Sum(requested) - |requested|)
  {
    hide *;
    GrantNearFloor(requested, available, i);
    NearExact(requested[i], available - |requested|, Sum(requested) - |requested|, Clamp(requested, available)[i]);
  }

  lemma GrantNearFloor(requested: seq<int>, available: nat, i: nat)
    requires i < |requested| && |requested| <= available < Sum(requested)
    ensures var floor := FloorGrant(requested[i], available - |requested|, Sum(requested) - |requested|);
      floor <= Clamp(requested, available)[i] <= floor + 1
  {
    hide Sum, FloorGrant, Bumped, LeftoverPlaces;
    BumpedAt(Floors(requested, available), LeftoverPlaces(requested, available), i);
  }

  lemma NearExact(value: int, spare: nat, over: int, g: int)
    requires value >= 1 && spare < over
    requires FloorGrant(value, spare, over) <= g <= FloorGrant(value, spare, over) + 1
    ensures WithinOneTurn(g, value, spare, over)
  {
    LostTurnRange(value, spare, over);
    var f := FloorGrant(value, spare, over);
    TimesAdd(f - 1, g - f + 1, over);
    TimesIs(1, over);
    TimesIs(2, over);
  }

  /** `combine_leases` */
  function CombineLeases(leases: seq<Lease>): Lease {
    if leases == [] then Lease(0, 0.0)
    else
      var front := CombineLeases(leases[..|leases| - 1]);
      var last := leases[|leases| - 1];
      Lease(front.maxTurns + last.maxTurns, front.maxCostUsd + last.maxCostUsd)
  }

  lemma {:induction false} PricedTotal(granted: seq<int>, turns: int, usd: real)
    ensures CombineLeases(Priced(granted, turns, usd)) == Lease(Sum(granted), DollarsFor(Sum(granted), turns, usd))
  {
    if granted == [] {
      assert DollarsFor(0, turns, usd) == 0.0;
    } else {
      hide DollarsFor;
      var n := |granted| - 1;
      PricedTotal(granted[..n], turns, usd);
      assert Priced(granted, turns, usd)[..n] == Priced(granted[..n], turns, usd);
      DollarsAdd(Sum(granted[..n]), granted[n], turns, usd);
    }
  }

  lemma DollarsAdd(a: int, b: int, turns: int, usd: real)
    ensures DollarsFor(a, turns, usd) + DollarsFor(b, turns, usd) == DollarsFor(a + b, turns, usd)
  {
  }

  /**
   * The quoted leases together are exactly the pool: all turns that were asked for and exist, and every
   * available dollar as soon as one turn is granted.
   */
  lemma QuoteConserves(requested: seq<int>, availableTurns: int, availableUsd: real)
    requires AllPositive(requested)
    ensures var pool := if availableTurns < 0 then 0 else availableTurns;
      var turns := if Sum(requested) <= pool then Sum(requested) else pool;
      && CombineLeases(QuoteShares(requested, availableTurns, availableUsd))
         == Lease(turns, if turns == 0 then 0.0 else availableUsd)
  {
    hide Clamp;
    hide DollarsFor;
    if requested != [] {
      var pool := if availableTurns < 0 then 0 else availableTurns;
      var granted := Clamp(requested, pool);
      ClampExact(requested, pool);
      PricedTotal(granted, Sum(granted), availableUsd);
      AllDollars(Sum(granted), availableUsd);
    }
  }

  lemma AllDollars(turns: int, usd: real)
    ensures DollarsFor(turns, turns, usd) == if turns == 0 then 0.0 else usd
  {
  }

  /** Two leases have the same price per turn when these products agree crosswise. */
  function DollarsTimesTurns(a: Lease, b: Lease): real {
    a.maxCostUsd * b.maxTurns as real
  }

  /** Quoted leases are leases: no negative turns or dollars, and the dollars follow the turns exactly. */
  lemma QuoteProportional(requested: seq<int>, availableTurns: int, availableUsd: real, i: nat, j: nat)
    requires AllPositive(requested) && availableUsd >= 0.0
    requires i < |requested| && j < |requested|
    ensures var q := QuoteShares(requested, availableTurns, availableUsd);
      && 0 <= q[i].maxTurns <= requested[i]
      && q[i].maxCostUsd >= 0.0
      && DollarsTimesTurns(q[i], q[j]) == DollarsTimesTurns(q[j], q[i])
  {
    hide Clamp;
    hide DollarsFor;
    var pool := if availableTurns < 0 then 0 else availableTurns;
    var granted := Clamp(requested, pool);
    ClampExact(requested, pool);
    SumAtLeastCount(requested);
    hide DollarsTimesTurns;
    CrossMultiply(availableUsd, granted[i], granted[j], Sum(granted));
  }

  lemma CrossMultiply(usd: real, a: int, b: int, t: int)
    requires usd >= 0.0 && a >= 0 && t >= 0
    ensures DollarsFor(a, t, usd) >= 0.0
    ensures DollarsTimesTurns(Lease(a, DollarsFor(a, t, usd)), Lease(b, DollarsFor(b, t, usd)))
         == DollarsTimesTurns(Lease(b, DollarsFor(b, t, usd)), Lease(a, DollarsFor(a, t, usd)))
  {
  }
}
