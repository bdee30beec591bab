/** The pile manager: the play width is cut into fixed-width ground segments,
    each holding the obstacles that came to rest over it and a count of them. */
module Piles {
  import opened Constants

  /** Identity of an obstacle: the same obstacle is listed both in the world's
      obstacle list and in the segment it rests on. */
  type Id = nat

  /** One ground segment: its left edge, its width, the number of obstacles
      resting on it, a visual height the game never changes from 0, and the
      obstacles themselves in the order they arrived. */
  datatype Segment = Segment(x: int, width: int, count: int, height: int, members: seq<Id>)

  /** ceil(a / b) for a non-negative `a` and positive `b`. */
  function CeilDiv(a: nat, b: nat): (q: nat)
    requires b > 0
    ensures q * b >= a
    ensures q == 0 || (q - 1) * b < a
  {
    if a == 0 then 0 else 1 + CeilDiv(if a >= b then a - b else 0, b)
  }

  /** The number of segments: enough to cover the play width. */
  function SegmentCount(): (n: nat)
    ensures n * PILE_SEGMENT_WIDTH >= GAME_WIDTH
    ensures (n - 1) * PILE_SEGMENT_WIDTH < GAME_WIDTH
    ensures n == 16
  {
    CeilDiv(GAME_WIDTH, PILE_SEGMENT_WIDTH)
  }

  /** Segment k sits at k * 32, is 32 wide and has visual height 0. */
  ghost predicate Layout(piles: seq<Segment>)
  {
    && |piles| == SegmentCount()
    && forall k :: 0 <= k < |piles| ==>
         piles[k].x == k * PILE_SEGMENT_WIDTH && piles[k].width == PILE_SEGMENT_WIDTH && piles[k].height == 0
  }

  /** Every segment's count is the length of its obstacle list. */
  ghost predicate Consistent(piles: seq<Segment>)
  {
    forall k :: 0 <= k < |piles| ==> piles[k].count == |piles[k].members|
  }

  ghost predicate WellFormed(piles: seq<Segment>)
  {
    Layout(piles) && Consistent(piles)
  }

  /** Builds the segments, all empty, left to right. */
  method InitGroundPiles() returns (piles: seq<Segment>)
    ensures WellFormed(piles)
    ensures forall k :: 0 <= k < |piles| ==> piles[k].members == []
    ensures PileIds(piles) == multiset{} && Total(piles) == 0
  {
    piles := [];
    var numSegments := CeilDiv(GAME_WIDTH, PILE_SEGMENT_WIDTH);
    var i := 0;
    while i < numSegments
      invariant 0 <= i <= numSegments && |piles| == i
      invariant forall k :: 0 <= k < i ==> piles[k] == Segment(k * PILE_SEGMENT_WIDTH, PILE_SEGMENT_WIDTH, 0, 0, [])
    {
      piles := piles + [Segment(i * PILE_SEGMENT_WIDTH, PILE_SEGMENT_WIDTH, 0, 0, [])];
      i := i + 1;
    }
    EmptyPiles(piles);
  }

  /** Index of the segment whose span contains x (may be out of range). */
  function SegmentIndexFor(x: real): int
  {
    (x / PILE_SEGMENT_WIDTH as real).Floor
  }

  /** The segments tile [0, 512): a point of the play width lies in the span of
      exactly one segment, the one `SegmentIndexFor` names. */
  lemma SegmentsTile(piles: seq<Segment>, x: real, k: int)
    requires Layout(piles)
    requires 0.0 <= x < GAME_WIDTH as real
    ensures 0 <= SegmentIndexFor(x) < |piles|
    ensures var s := piles[SegmentIndexFor(x)]; s.x as real <= x < (s.x + s.width) as real
    ensures 0 <= k < |piles| && piles[k].x as real <= x < (piles[k].x + piles[k].width) as real
            ==> k == SegmentIndexFor(x)
  {
    var i := SegmentIndexFor(x);
    var q := x / 32.0;
    assert x == 32.0 * q;
    assert i as real <= q < i as real + 1.0;
    assert 0 <= i < 16;
    if 0 <= k < |piles| && piles[k].x as real <= x < (piles[k].x + piles[k].width) as real {
      assert (32 * k) as real <= x < (32 * k + 32) as real;
      assert k as real <= q < k as real + 1.0;
    }
  }

  /** Number of obstacles in the segment under x, or 0 off the ground. */
  function PileDensityAt(piles: seq<Segment>, x: real): (density: int)
    ensures var k := SegmentIndexFor(x);
            density == if 0 <= k < |piles| then piles[k].count else 0
  {
    var segmentIndex := SegmentIndexFor(x);
    if segmentIndex >= 0 && segmentIndex < |piles| then piles[segmentIndex].count else 0
  }

  /** The density at a point is the count of the segment whose span holds it,
      and 0 left of the ground and right of it. */
  lemma DensityBySpan(piles: seq<Segment>, x: real, k: int)
    requires Layout(piles)
    ensures 0 <= k < |piles| && piles[k].x as real <= x < (piles[k].x + piles[k].width) as real
            ==> PileDensityAt(piles, x) == piles[k].count
    ensures x < 0.0 || x >= GAME_WIDTH as real ==> PileDensityAt(piles, x) == 0
  {
    if 0.0 <= x < GAME_WIDTH as real {
      SegmentsTile(piles, x, k);
    } else {
      var q := x / 32.0;
      assert x == 32.0 * q;
      if x < 0.0 { assert q < 0.0; } else { assert q >= 16.0; }
    }
  }

  /** All obstacle ids held by the segments, counted with repetition. */
  ghost function PileIds(piles: seq<Segment>): multiset<Id>
  {
    if piles == [] then multiset{} else multiset(piles[0].members) + PileIds(piles[1..])
  }

  /** The sum of the segment counts. */
  function Total(piles: seq<Segment>): int
  {
    if piles == [] then 0 else piles[0].count + Total(piles[1..])
  }

  /** No obstacle is held twice, in one segment or across two. */
  ghost predicate Distinct(piles: seq<Segment>)
  {
    forall id :: id in PileIds(piles) ==> PileIds(piles)[id] == 1
  }

  lemma {:induction false} PileIdsUpdate(piles: seq<Segment>, k: int, s: Segment)
    requires 0 <= k < |piles|
    ensures PileIds(piles[k := s]) + multiset(piles[k].members) == PileIds(piles) + multiset(s.members)
  {
    if k == 0 {
      assert piles[k := s][1..] == piles[1..];
    } else {
      var rest := piles[1..];
      assert piles[k := s][1..] == rest[k - 1 := s];
      PileIdsUpdate(rest, k - 1, s);
      var m0, mk, ms := multiset(piles[0].members), multiset(piles[k].members), multiset(s.members);
      var x, y := PileIds(rest[k - 1 := s]), PileIds(rest);
      assert PileIds(piles[k := s]) == m0 + x;
      assert PileIds(piles) == m0 + y;
      forall o ensures (m0 + x + mk)[o] == (m0 + y + ms)[o] {
        assert (x + mk)[o] == (y + ms)[o];
      }
    }
  }

  lemma Cancel<T>(a: multiset<T>, b: multiset<T>, c: multiset<T>)
    requires a + c == b + c
    ensures a == b
  {
    forall x ensures a[x] == b[x] {
      assert (a + c)[x] == (b + c)[x];
    }
  }

  lemma {:induction false} TotalUpdate(piles: seq<Segment>, k: int, s: Segment)
    requires 0 <= k < |piles|
    ensures Total(piles[k := s]) == Total(piles) - piles[k].count + s.count
  {
    if k == 0 {
      assert piles[k := s][1..] == piles[1..];
    } else {
      assert piles[k := s][1..] == piles[1..][k - 1 := s];
      TotalUpdate(piles[1..], k - 1, s);
    }
  }

  /** Member i of segment k is among the ids the segments hold. */
  lemma {:induction false} MemberInPileIds(piles: seq<Segment>, k: int, i: int)
    requires 0 <= k < |piles| && 0 <= i < |piles[k].members|
    ensures piles[k].members[i] in PileIds(piles)
  {
    if k > 0 {
      MemberInPileIds(piles[1..], k - 1, i);
    }
  }

  /** Every id the segments hold is member of some segment. */
  lemma {:induction false} PileIdsMember(piles: seq<Segment>, id: Id) returns (k: int, i: int)
    requires id in PileIds(piles)
    ensures 0 <= k < |piles| && 0 <= i < |piles[k].members| && piles[k].members[i] == id
  {
    if id in multiset(piles[0].members) {
      k := 0;
      i :| 0 <= i < |piles[0].members| && piles[0].members[i] == id;
    } else {
      k, i := PileIdsMember(piles[1..], id);
      k := k + 1;
    }
  }

  /** Without repeated ids, an id is found at one position only. */
  lemma DistinctPositions(piles: seq<Segment>, k: int, i: int, k': int, i': int)
    requires Distinct(piles)
    requires 0 <= k < |piles| && 0 <= i < |piles[k].members|
    requires 0 <= k' < |piles| && 0 <= i' < |piles[k'].members|
    requires piles[k].members[i] == piles[k'].members[i']
    ensures k == k' && i == i'
  {
    var x := piles[k].members[i];
    var m := piles[k].members;
    var s := piles[k].(members := []);
    PileIdsUpdate(piles, k, s);
    assert PileIds(piles) == PileIds(piles[k := s]) + multiset(m);
    MemberInPileIds(piles, k, i);
    if k != k' {
      MemberInPileIds(piles[k := s], k', i');
    } else if i < i' {
      TwoPositions(m, i, i');
    } else if i' < i {
      TwoPositions(m, i', i);
    }
  }

  /** An element found at two positions occurs at least twice. */
  lemma TwoPositions<T>(m: seq<T>, i: int, j: int)
    requires 0 <= i < j < |m| && m[i] == m[j]
    ensures multiset(m)[m[i]] >= 2
  {
    assert m == m[..j] + m[j..];
    assert m[i] in m[..j] && m[j] in m[j..];
  }

  /** Segments with empty lists and zero counts hold nothing. */
  lemma {:induction false} EmptyPiles(piles: seq<Segment>)
    requires forall k :: 0 <= k < |piles| ==> piles[k].members == [] && piles[k].count == 0
    ensures PileIds(piles) == multiset{} && Total(piles) == 0
  {
    if piles != [] {
      EmptyPiles(piles[1..]);
    }
  }

  /** When every count matches its list, the total is the number of held ids:
      the counts neither lose nor invent obstacles. */
  lemma {:induction false} TotalIsSize(piles: seq<Segment>)
    requires Consistent(piles)
    ensures Total(piles) == |PileIds(piles)|
  {
    if piles != [] {
      TotalIsSize(piles[1..]);
    }
  }

  /** A landed obstacle joins segment k: count and list grow together. */
  function AddToSegment(piles: seq<Segment>, k: int, id: Id): (r: seq<Segment>)
    requires 0 <= k < |piles|
    ensures |r| == |piles|
    ensures r[k].members == piles[k].members + [id] && r[k].count == piles[k].count + 1
    ensures r[k].x == piles[k].x && r[k].width == piles[k].width && r[k].height == piles[k].height
    ensures forall j :: 0 <= j < |r| && j != k ==> r[j] == piles[j]
    ensures WellFormed(piles) ==> WellFormed(r)
    ensures PileIds(r) == PileIds(piles) + multiset{id}
    ensures Total(r) == Total(piles) + 1
  {
    var s := piles[k].(count := piles[k].count + 1, members := piles[k].members + [id]);
    PileIdsUpdate(piles, k, s);
    TotalUpdate(piles, k, s);
    assert multiset(s.members) == multiset(piles[k].members) + multiset{id};
    Cancel(PileIds(piles[k := s]), PileIds(piles) + multiset{id}, multiset(piles[k].members));
    piles[k := s]
  }

  /** Member i of segment k leaves it: count and list shrink together. */
  function RemoveFromSegment(piles: seq<Segment>, k: int, i: int): (r: seq<Segment>)
    requires 0 <= k < |piles| && 0 <= i < |piles[k].members|
    ensures |r| == |piles|
    ensures r[k].members == piles[k].members[..i] + piles[k].members[i + 1..]
    ensures r[k].count == piles[k].count - 1
    ensures r[k].x == piles[k].x && r[k].width == piles[k].width && r[k].height == piles[k].height
    ensures forall j :: 0 <= j < |r| && j != k ==> r[j] == piles[j]
    ensures WellFormed(piles) ==> WellFormed(r)
    ensures PileIds(r) == PileIds(piles) - multiset{piles[k].members[i]}
    ensures Total(r) == Total(piles) - 1
  {
    var m := piles[k].members;
    var s := piles[k].(count := piles[k].count - 1, members := m[..i] + m[i + 1..]);
    RemoveFacts(piles, k, i, s);
    piles[k := s]
  }

  lemma RemoveFacts(piles: seq<Segment>, k: int, i: int, s: Segment)
    requires 0 <= k < |piles| && 0 <= i < |piles[k].members|
    requires s == piles[k].(count := piles[k].count - 1,
                            members := piles[k].members[..i] + piles[k].members[i + 1..])
    ensures PileIds(piles[k := s]) == PileIds(piles) - multiset{piles[k].members[i]}
    ensures Total(piles[k := s]) == Total(piles) - 1
  {
    var m := piles[k].members;
    assert m == m[..i] + [m[i]] + m[i + 1..];
    assert multiset(m) == multiset(s.members) + multiset{m[i]};
    PileIdsUpdate(piles, k, s);
    TotalUpdate(piles, k, s);
    MemberInPileIds(piles, k, i);
    var p, q := PileIds(piles[k := s]), PileIds(piles);
    assert p + multiset(s.members) + multiset{m[i]} == q + multiset(s.members);
    forall o ensures p[o] == (q - multiset{m[i]})[o] {
      assert (p + multiset(s.members) + multiset{m[i]})[o] == (q + multiset(s.members))[o];
    }
  }

  /** Member i of segment k moves to the end of segment q: the total and the
      set of held ids are unchanged. */
  function MoveToSegment(piles: seq<Segment>, k: int, i: int, q: int): (r: seq<Segment>)
    requires 0 <= k < |piles| && 0 <= i < |piles[k].members| && 0 <= q < |piles| && q != k
    ensures |r| == |piles|
    ensures r[k].members == piles[k].members[..i] + piles[k].members[i + 1..]
    ensures r[q].members == piles[q].members + [piles[k].members[i]]
    ensures forall j :: 0 <= j < |r| && j != k && j != q ==> r[j] == piles[j]
    ensures WellFormed(piles) ==> WellFormed(r)
    ensures PileIds(r) == PileIds(piles)
    ensures Total(r) == Total(piles)
  {
    var id := piles[k].members[i];
    MemberInPileIds(piles, k, i);
    AddToSegment(RemoveFromSegment(piles, k, i), q, id)
  }

  /** The estimated top of a pile reaches the danger line exactly when it holds
      ten obstacles or more. */
  lemma HazardThreshold(count: int)
    ensures (count > 0 && GROUND_LEVEL - count * PILE_UNIT_HEIGHT <= PILE_DANGER_TOP) <==> count >= 10
  {
  }

  /** The pile hazard scan: some non-empty segment's estimated top,
      350 - 32 * count, is at or above y = 50. */
  method PileHazard(piles: seq<Segment>) returns (hazard: bool)
    ensures hazard <==> exists k :: 0 <= k < |piles| && piles[k].count >= 10
  {
    var k := 0;
    while k < |piles|
      invariant 0 <= k <= |piles|
      invariant forall j :: 0 <= j < k ==> piles[j].count < 10
    {
      if piles[k].count > 0 {
        var pileTop := GROUND_LEVEL - piles[k].count * PILE_UNIT_HEIGHT;
        if pileTop <= PILE_DANGER_TOP {
          return true;
        }
      }
      k := k + 1;
    }
    return false;
  }
}
