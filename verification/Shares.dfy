/** Who gets how many turns, said with plain division and by counting who comes first. */
module Shares {
  import opened Apportion

  /** The places that come before this one: larger requests, and equal ones further left. */
  function Ahead(requested: seq<int>, i: nat): set<nat>
    requires i < |requested|
  {
    set j: nat | j < |requested| && (requested[j] > requested[i] || (requested[j] == requested[i] && j < i))
  }

  /** One turn, and what plain division of the spare turns gives. */
  function PlainFloors(requested: seq<int>, spare: nat, over: nat): (r: seq<int>)
    requires over > 0
    ensures |r| == |requested| && forall i | 0 <= i < |r| :: r[i] == 1 + ((requested[i] - 1) * spare) / over
  {
    seq(|requested|, i requires 0 <= i < |requested| => 1 + ((requested[i] - 1) * spare) / over)
  }

  function Indices(order: seq<Ranked>): set<nat> {
    set k: nat | k < |order| :: order[k].index
  }

  lemma {:induction false} IndicesCount(order: seq<Ranked>)
    requires NoRepeats(order)
    ensures |Indices(order)| == |order|
  {
    if order != [] {
      var front, last := order[..|order| - 1], order[|order| - 1];
      IndicesCount(front);
      assert Indices(order) == Indices(front) + {last.index};
    }
  }

  lemma PlacesBefore(requested: seq<int>, p: nat, k: nat)
    requires p < |requested| && k < |requested|
    ensures var order := RankDescending(requested);
      && order[p].index < |requested| && order[k].index < |requested|
      && (order[k].index in Ahead(requested, order[p].index) <==> k < p)
  {
    RankFacts(requested);
    hide RankDescending;
    var order := RankDescending(requested);
    assert k < p ==> RanksBefore(order[k], order[p]);
    assert p < k ==> RanksBefore(order[p], order[k]);
  }

  lemma PlaceOf(requested: seq<int>, i: nat) returns (p: nat)
    requires i < |requested|
    ensures p < |requested| && RankDescending(requested)[p].index == i
  {
    RankFacts(requested);
    hide RankDescending;
    var order := RankDescending(requested);
    assert Ranked(requested[i], i) in order;
    p :| 0 <= p < |order| && order[p] == Ranked(requested[i], i);
  }

  /** A place stands in the ranking right after those that come before it. */
  lemma PlaceInRanking(requested: seq<int>, i: nat) returns (p: nat)
    requires i < |requested|
    ensures p < |requested| && RankDescending(requested)[p].index == i && p == |Ahead(requested, i)|
  {
    hide RankDescending, Ahead;
    RankFacts(requested);
    var order := RankDescending(requested);
    p := PlaceOf(requested, i);
    IndicesCount(order[..p]);
    forall j: nat ensures j in Indices(order[..p]) <==> j in Ahead(requested, i) {
      if j in Indices(order[..p]) {
        var k: nat :| k < p && order[..p][k].index == j;
        PlacesBefore(requested, p, k);
      }
      if j in Ahead(requested, i) {
        AheadIsAPlace(requested, i, j);
        var k := PlaceOf(requested, j);
        PlacesBefore(requested, p, k);
        assert order[..p][k].index == j;
      }
    }
    assert Indices(order[..p]) == Ahead(requested, i);
  }

  lemma AheadIsAPlace(requested: seq<int>, i: nat, j: nat)
    requires i < |requested| && j in Ahead(requested, i)
    ensures j < |requested|
  {
  }

  /** The front of the ranking is who has fewer than that many before it. */
  lemma InFront(requested: seq<int>, n: int, i: nat)
    requires i < |requested|
    ensures Lists(Front(RankDescending(requested), n), i) <==> |Ahead(requested, i)| < n
  {
    hide RankDescending, Ahead;
    RankFacts(requested);
    var order := RankDescending(requested);
    var p := PlaceInRanking(requested, i);
    var front := Front(order, n);
    if p < n {
      assert front[p].index == i;
    }
    if Lists(front, i) {
      var k :| 0 <= k < |front| && front[k].index == i;
      assert order[k].index == i && k == p;
    }
  }

  /** With enough turns everybody gets what they asked for; with fewer turns than requests the first get one each; otherwise everybody
      gets one turn and a share of the rest rounded down, and what that leaves goes to the first, one each. */
  lemma ClampMeans(requested: seq<int>, available: nat, i: nat)
    requires i < |requested|
    ensures Clamp(requested, available)[i] ==
      if Sum(requested) <= available then requested[i]
      else if |requested| > available then (if |Ahead(requested, i)| < available then 1 else 0)
      else
        var floors := PlainFloors(requested, available - |requested|, Sum(requested) - |requested|);
        floors[i] + if |Ahead(requested, i)| < available - Sum(floors) then 1 else 0
  {
    hide Bumped, RankDescending, Front, Ahead, Lists, PlainFloors, FloorGrants, Zeros, Sum;
    if Sum(requested) > available {
      if |requested| > available {
        InFront(requested, available, i);
        BumpedAt(Zeros(|requested|), FirstPlaces(requested, available), i);
      } else {
        var spare, over := available - |requested|, Sum(requested) - |requested|;
        FloorsArePlain(requested, spare, over);
        InFront(requested, available - Sum(Floors(requested, available)), i);
        BumpedAt(Floors(requested, available), LeftoverPlaces(requested, available), i);
      }
    }
  }

  lemma FloorsArePlain(requested: seq<int>, spare: nat, over: nat)
    requires over > 0
    ensures FloorGrants(requested, spare, over) == PlainFloors(requested, spare, over)
  {
    forall i | 0 <= i < |requested| ensures FloorGrants(requested, spare, over)[i] == PlainFloors(requested, spare, over)[i] {
      FloorGrantIs(requested[i], spare, over);
    }
  }

  /** A lease has its clamped turns, and of the dollars the part its turns are of all turns granted. */
  lemma LeaseMeans(requested: seq<int>, turns: int, usd: real, i: nat)
    requires i < |requested|
    ensures var granted := Clamp(requested, if turns < 0 then 0 else turns);
      QuoteShares(requested, turns, usd)[i] == Lease(granted[i], if Sum(granted) == 0 then 0.0 else usd * granted[i] as real / Sum(granted) as real)
  {
  }
}
