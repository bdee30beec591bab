/** The tick of the earlier revision (game.js): box collisions against the
    piles and the player, a push of every grounded obstacle while the
    umbrella is open, and grounded obstacles that settle onto the highest
    obstacle found under them. */
module Legacy {
  import opened Constants
  import opened Geometry
  import opened Lists
  import opened Piles
  import opened Rules
  import opened Obstacles
  import opened Story
  import opened Game

  /* ---------- The first grounded obstacle hit ---------- */

  /** The boxes of a falling and a grounded obstacle overlap. */
  predicate Hits(o: Obstacle, g: Obstacle)
  {
    CheckCollision(BoxOf(o), BoxOf(g))
  }

  /** The first obstacle of `row` whose box overlaps o's. */
  function FirstInRow(o: Obstacle, row: seq<Obstacle>): Option<Obstacle>
    decreases |row|
  {
    if row == [] then None
    else if Hits(o, row[0]) then Some(row[0])
    else FirstInRow(o, row[1..])
  }

  /** The first obstacle, segment by segment and each in list order, whose
      box overlaps o's. */
  function FirstAcross(o: Obstacle, gs: seq<seq<Obstacle>>): Option<Obstacle>
    decreases |gs|
  {
    if gs == [] then None
    else if FirstInRow(o, gs[0]).Some? then FirstInRow(o, gs[0])
    else FirstAcross(o, gs[1..])
  }

  /** The grounded obstacle a falling one lands on: none for a deflected
      obstacle, which passes through the piles. */
  function GroundCollision(o: Obstacle, gs: seq<seq<Obstacle>>): Option<Obstacle>
  {
    if o.deflected then None else FirstAcross(o, gs)
  }

  /** The i-th obstacle of segment k overlaps `o` and no obstacle before it
      in scan order does. */
  ghost predicate FirstHit(o: Obstacle, gs: seq<seq<Obstacle>>, k: int, i: int)
  {
    && 0 <= k < |gs| && 0 <= i < |gs[k]| && Hits(o, gs[k][i])
    && forall k', i' :: 0 <= k' < |gs| && 0 <= i' < |gs[k']| && Before(k', i', k, i) ==> !Hits(o, gs[k'][i'])
  }

  lemma {:induction false} FirstInRowIsFirst(o: Obstacle, row: seq<Obstacle>)
    decreases |row|
    ensures FirstInRow(o, row).None? <==> forall i :: 0 <= i < |row| ==> !Hits(o, row[i])
    ensures FirstInRow(o, row).Some? ==>
              exists i :: 0 <= i < |row| && row[i] == FirstInRow(o, row).value && Hits(o, row[i]) &&
                          forall j :: 0 <= j < i ==> !Hits(o, row[j])
  {
    if row != [] && !Hits(o, row[0]) {
      FirstInRowIsFirst(o, row[1..]);
      if FirstInRow(o, row[1..]).Some? {
        var i :| 0 <= i < |row[1..]| && row[1..][i] == FirstInRow(o, row[1..]).value && Hits(o, row[1..][i]) &&
                 forall j :: 0 <= j < i ==> !Hits(o, row[1..][j]);
        assert forall j :: 0 <= j < i + 1 ==> !Hits(o, row[j]) by {
          forall j | 0 <= j < i + 1 ensures !Hits(o, row[j]) {
            if j > 0 { assert row[j] == row[1..][j - 1]; }
          }
        }
        assert row[i + 1] == FirstInRow(o, row).value && Hits(o, row[i + 1]);
      } else {
        forall i | 0 <= i < |row| ensures !Hits(o, row[i]) {
          if i > 0 { assert row[i] == row[1..][i - 1]; }
        }
      }
    }
  }

  /** The ground collision is the first overlapping grounded obstacle in
      scan order; there is none exactly when the faller was deflected or no
      grounded obstacle overlaps it. */
  lemma {:induction false} GroundCollisionIsFirst(o: Obstacle, gs: seq<seq<Obstacle>>)
    ensures GroundCollision(o, gs).None? <==>
              o.deflected || forall k, i :: 0 <= k < |gs| && 0 <= i < |gs[k]| ==> !Hits(o, gs[k][i])
    ensures GroundCollision(o, gs).Some? ==>
              exists k, i :: FirstHit(o, gs, k, i) && GroundCollision(o, gs).value == gs[k][i]
  {
    if !o.deflected {
      FirstAcrossIsFirst(o, gs);
    }
  }

  lemma {:induction false} FirstAcrossIsFirst(o: Obstacle, gs: seq<seq<Obstacle>>)
    decreases |gs|
    ensures FirstAcross(o, gs).None? <==> forall k, i :: 0 <= k < |gs| && 0 <= i < |gs[k]| ==> !Hits(o, gs[k][i])
    ensures FirstAcross(o, gs).Some? ==> exists k, i :: FirstHit(o, gs, k, i) && FirstAcross(o, gs).value == gs[k][i]
  {
    if gs == [] {
      return;
    }
    FirstInRowIsFirst(o, gs[0]);
    if FirstInRow(o, gs[0]).Some? {
      var i :| 0 <= i < |gs[0]| && gs[0][i] == FirstInRow(o, gs[0]).value && Hits(o, gs[0][i]) &&
               forall j :: 0 <= j < i ==> !Hits(o, gs[0][j]);
      assert FirstHit(o, gs, 0, i);
    } else {
      var rest := gs[1..];
      FirstAcrossIsFirst(o, rest);
      if FirstAcross(o, rest).Some? {
        var k, i :| FirstHit(o, rest, k, i) && FirstAcross(o, rest).value == rest[k][i];
        forall k', i' | 0 <= k' < |gs| && 0 <= i' < |gs[k']| && Before(k', i', k + 1, i)
          ensures !Hits(o, gs[k'][i'])
        {
          if k' > 0 {
            assert gs[k'] == rest[k' - 1];
          }
        }
        assert FirstHit(o, gs, k + 1, i);
      } else {
        forall k, i | 0 <= k < |gs| && 0 <= i < |gs[k]|
          ensures !Hits(o, gs[k][i])
        {
          if k > 0 {
            assert gs[k] == rest[k - 1];
          }
        }
      }
    }
  }

  /** Scans the segments, each in list order, for the first grounded
      obstacle a falling one overlaps. */
  method FindGroundCollision(o: Obstacle, gs: seq<seq<Obstacle>>) returns (r: Option<Obstacle>)
    ensures r == GroundCollision(o, gs)
  {
    if o.deflected {
      return None;
    }
    var k := 0;
    while k < |gs|
      invariant 0 <= k <= |gs|
      invariant FirstAcross(o, gs) == FirstAcross(o, gs[k..])
    {
      assert gs[k..][0] == gs[k] && gs[k..][1..] == gs[k + 1..];
      var i := 0;
      while i < |gs[k]|
        invariant 0 <= i <= |gs[k]|
        invariant FirstInRow(o, gs[k]) == FirstInRow(o, gs[k][i..])
      {
        assert gs[k][i..][0] == gs[k][i] && gs[k][i..][1..] == gs[k][i + 1..];
        if Hits(o, gs[k][i]) {
          return Some(gs[k][i]);
        }
        i := i + 1;
      }
      assert gs[k][i..] == [];
      k := k + 1;
    }
    assert gs[k..] == [];
    return None;
  }

  /* ---------- Support and settling ---------- */

  /** The x range [x, x + width) strictly overlaps g's. */
  predicate Overlaps(x: real, width: int, g: Obstacle)
  {
    x < g.x + g.width as real && x + width as real > g.x
  }

  /** `h` is the top of the highest grounded obstacle over [x, x + width):
      the least of ground level and the y of every grounded obstacle whose
      x range overlaps it. */
  ghost predicate IsHighest(gs: seq<seq<Obstacle>>, x: real, width: int, h: real)
  {
    && h <= GROUND_LEVEL as real
    && (forall k, i :: 0 <= k < |gs| && 0 <= i < |gs[k]| && Overlaps(x, width, gs[k][i]) ==> h <= gs[k][i].y)
    && (h == GROUND_LEVEL as real ||
        exists k, i :: 0 <= k < |gs| && 0 <= i < |gs[k]| && Overlaps(x, width, gs[k][i]) && h == gs[k][i].y)
  }

  /** The highest top is unique. */
  lemma IsHighestUnique(gs: seq<seq<Obstacle>>, x: real, width: int, h: real, h': real)
    requires IsHighest(gs, x, width, h) && IsHighest(gs, x, width, h')
    ensures h == h'
  {
    if h != GROUND_LEVEL as real {
      var k, i :| 0 <= k < |gs| && 0 <= i < |gs[k]| && Overlaps(x, width, gs[k][i]) && h == gs[k][i].y;
      assert h' <= h;
    }
    if h' != GROUND_LEVEL as real {
      var k, i :| 0 <= k < |gs| && 0 <= i < |gs[k]| && Overlaps(x, width, gs[k][i]) && h' == gs[k][i].y;
      assert h <= h';
    }
  }

  /** Scans every segment for the highest grounded obstacle over [x, x + width). */
  method HighestAt(gs: seq<seq<Obstacle>>, x: real, width: int) returns (h: real)
    ensures IsHighest(gs, x, width, h)
  {
    h := GROUND_LEVEL as real;
    for k := 0 to |gs|
      invariant h <= GROUND_LEVEL as real
      invariant forall k', i :: 0 <= k' < k && 0 <= i < |gs[k']| && Overlaps(x, width, gs[k'][i]) ==> h <= gs[k'][i].y
      invariant h == GROUND_LEVEL as real ||
                exists k', i :: 0 <= k' < |gs| && 0 <= i < |gs[k']| && Overlaps(x, width, gs[k'][i]) && h == gs[k'][i].y
    {
      for i := 0 to |gs[k]|
        invariant h <= GROUND_LEVEL as real
        invariant forall k', i' ::
                    0 <= k' < |gs| && 0 <= i' < |gs[k']| && Before(k', i', k, i) && Overlaps(x, width, gs[k'][i']) ==>
                    h <= gs[k'][i'].y
        invariant h == GROUND_LEVEL as real ||
                  exists k', i' :: 0 <= k' < |gs| && 0 <= i' < |gs[k']| && Overlaps(x, width, gs[k'][i']) && h == gs[k'][i'].y
      {
        if Overlaps(x, width, gs[k][i]) && gs[k][i].y < h {
          h := gs[k][i].y;
        }
      }
    }
  }

  /** One tick of settling towards `expected`: more than two pixels above
      it, the obstacle drops three pixels but not past it; otherwise it snaps
      to it. */
  function SettleY(y: real, expected: real): (r: real)
    ensures r <= expected
    ensures y < expected - 2.0 ==> y < r <= y + 3.0
    ensures y >= expected - 2.0 ==> r == expected
    ensures r == expected || r == y + 3.0
  {
    if y < expected - 2.0 then
      if y + 3.0 >= expected then expected else y + 3.0
    else expected
  }

  /** Settling `n` ticks in a row towards a fixed expected position. */
  function SettleTicks(y: real, expected: real, n: nat): real
    decreases n
  {
    if n == 0 then y else SettleTicks(SettleY(y, expected), expected, n - 1)
  }

  /** An obstacle left above its expected position reaches it within one
      tick per three pixels of the drop, never overshooting. */
  lemma {:induction false} SettleReaches(y: real, expected: real, n: nat)
    requires y <= expected && expected - y <= 3.0 * n as real
    decreases n
    ensures SettleTicks(y, expected, n) == expected
  {
    if n > 0 {
      SettleReaches(SettleY(y, expected), expected, n - 1);
    }
  }

  /** Every obstacle in a segment overlaps itself, so the support found under
      it is at most its own top and it settles a full height above where it
      was: an obstacle of a segment that is not being pushed climbs by at
      least its own height every tick. */
  lemma SelfSupportRise(gs: seq<seq<Obstacle>>, k: int, i: int, h: real)
    requires 0 <= k < |gs| && 0 <= i < |gs[k]| && gs[k][i].width > 0 && gs[k][i].height > 2
    requires IsHighest(gs, gs[k][i].x, gs[k][i].width, h)
    ensures SettleY(gs[k][i].y, h - gs[k][i].height as real) == h - gs[k][i].height as real
    ensures SettleY(gs[k][i].y, h - gs[k][i].height as real) <= gs[k][i].y - gs[k][i].height as real
  {
    assert Overlaps(gs[k][i].x, gs[k][i].width, gs[k][i]);
  }

  /** The same climb for an obstacle held by a segment, in terms of the
      segments and the obstacles by id. */
  lemma PiledObstacleRises(piles: seq<Segment>, store: map<Id, Obstacle>, id: Id, h: real)
    requires PileMembersStored(piles, store) && id in PileIds(piles) && id in store
    requires store[id].width > 0 && store[id].height > 2
    requires IsHighest(GroundView(piles, store), store[id].x, store[id].width, h)
    ensures SettleY(store[id].y, h - store[id].height as real) <= store[id].y - store[id].height as real
  {
    var k, i := PileIdsMember(piles, id);
    SelfSupportRise(GroundView(piles, store), k, i, h);
  }

  /* ---------- Pushing grounded obstacles ---------- */

  /** The zone the push test uses: the player's box widened by 20 on each side. */
  function PushZone(p: Player): (b: Box)
    ensures b.x + b.width / 2.0 == p.x + PLAYER_WIDTH as real / 2.0
    ensures b.y == p.y && b.width == PLAYER_WIDTH as real + 40.0 && b.height == PLAYER_HEIGHT as real
  {
    Box(p.x - 20.0, p.y, PLAYER_WIDTH as real + 40.0, PLAYER_HEIGHT as real)
  }

  /** A grounded obstacle not already pushed starts sliding away from the
      player at two pixels per tick when the push test passes. The test
      compares the player with a zone around the player rather than with the
      obstacle. */
  function Marked(g: Obstacle, p: Player): Obstacle
  {
    if !g.pushing && CheckCollision(PlayerBox(p), PushZone(p)) then
      g.(pushVelocityX := PushDirection(p.x, g) * 2.0, pushing := true)
    else g
  }

  /** The push test always passes, so every grounded obstacle in a segment
      that is not already being pushed is pushed, however far away it is. */
  lemma MarksEveryIdleObstacle(g: Obstacle, p: Player)
    ensures !g.pushing ==> Marked(g, p).pushing && (Marked(g, p).pushVelocityX == 2.0 || Marked(g, p).pushVelocityX == -2.0)
    ensures !g.pushing ==> (Marked(g, p).pushVelocityX > 0.0 <==> p.x + PLAYER_WIDTH as real / 2.0 < CentreX(g))
    ensures g.pushing ==> Marked(g, p) == g
  {
    assert CheckCollision(PlayerBox(p), PushZone(p));
  }

  /** The mark of this revision, as a function of the obstacle alone. */
  function MarkFor(p: Player): Obstacle -> Obstacle
  {
    g => Marked(g, p)
  }

  /** While the umbrella is open, every obstacle held by a segment is marked. */
  method MarkPushes(w: World)
    requires w.Valid()
    modifies w
    ensures w.Valid()
    ensures forall x :: x in w.store <==> x in old(w.store)
    ensures forall x :: x in old(w.store) ==>
              w.store[x] == if old(w.player.umbrella.open) && x in old(PileIds(w.piles))
                            then Marked(old(w.store)[x], old(w.player))
                            else old(w.store)[x]
    ensures w.piles == old(w.piles) && w.obstacles == old(w.obstacles) && w.nextId == old(w.nextId)
    ensures w.player == old(w.player) && w.story == old(w.story)
    ensures w.score == old(w.score) && w.highScore == old(w.highScore) && w.gameOver == old(w.gameOver)
  {
    if !w.player.umbrella.open {
      return;
    }
    ghost var start := w.store;
    for k := 0 to |w.piles|
      invariant w.Valid()
      invariant w.piles == old(w.piles) && w.obstacles == old(w.obstacles) && w.nextId == old(w.nextId)
      invariant w.player == old(w.player) && w.story == old(w.story)
      invariant w.score == old(w.score) && w.highScore == old(w.highScore) && w.gameOver == old(w.gameOver)
      invariant MarkedUpTo(w.piles, w.store, start, MarkFor(w.player), k, 0)
    {
      for i := 0 to |w.piles[k].members|
        invariant w.Valid()
        invariant w.piles == old(w.piles) && w.obstacles == old(w.obstacles) && w.nextId == old(w.nextId)
        invariant w.player == old(w.player) && w.story == old(w.story)
        invariant w.score == old(w.score) && w.highScore == old(w.highScore) && w.gameOver == old(w.gameOver)
        invariant MarkedUpTo(w.piles, w.store, start, MarkFor(w.player), k, i)
      {
        MarkOne(w, k, i, start);
      }
      RowDone(w.piles, w.store, start, MarkFor(w.player), k);
    }
    ScanDone(w.piles, w.store, start, MarkFor(w.player));
  }

  /** The scan's step at member i of segment k. */
  method MarkOne(w: World, k: int, i: int, ghost start: map<Id, Obstacle>)
    requires w.Valid() && 0 <= k < |w.piles| && 0 <= i < |w.piles[k].members|
    requires MarkedUpTo(w.piles, w.store, start, MarkFor(w.player), k, i)
    modifies w
    ensures w.Valid()
    ensures w.piles == old(w.piles) && w.obstacles == old(w.obstacles) && w.nextId == old(w.nextId)
    ensures w.player == old(w.player) && w.story == old(w.story)
    ensures w.score == old(w.score) && w.highScore == old(w.highScore) && w.gameOver == old(w.gameOver)
    ensures MarkedUpTo(w.piles, w.store, start, MarkFor(w.player), k, i + 1)
  {
    var id := w.piles[k].members[i];
    MemberInPileIds(w.piles, k, i);
    var g := w.store[id];
    assert g == start[id];
    MarkStep(w.piles, w.store, start, MarkFor(w.player), k, i);
    w.SetObstacle(id, Marked(g, w.player));
  }

  /** A grounded obstacle no longer pushed settles towards the top of the
      highest obstacle over its x range, found in the segments as they are
      now. Held by a segment, it finds itself and climbs. */
  method Settle(w: World, id: Id) returns (support: real)
    requires w.Valid() && id in w.store && w.store[id].onGround
    modifies w
    ensures w.Valid()
    ensures var g := old(w.store[id]);
            && IsHighest(old(w.Grounded()), g.x, g.width, support)
            && w.store == old(w.store)[id := g.(y := SettleY(g.y, support - g.height as real))]
    ensures id in old(PileIds(w.piles)) ==> w.store[id].y <= old(w.store[id]).y - old(w.store[id]).height as real
    ensures w.obstacles == old(w.obstacles) && w.nextId == old(w.nextId) && w.piles == old(w.piles)
    ensures w.player == old(w.player) && w.story == old(w.story)
    ensures w.score == old(w.score) && w.highScore == old(w.highScore) && w.gameOver == old(w.gameOver)
  {
    var g := w.store[id];
    var gs: seq<seq<Obstacle>> := w.Grounded();
    support := HighestAt(gs, g.x, g.width);
    var settled := g.(y := SettleY(g.y, support - g.height as real));
    if id in PileIds(w.piles) {
      PiledObstacleRises(w.piles, w.store, id, support);
      assert settled.y <= g.y - g.height as real;
    }
    w.SetObstacle(id, settled);
  }

  /** The grounded step for member i of segment k: the push, then, unless
      the obstacle left the game or is still being pushed, the settle. */
  method PushOne(w: World, k: int, i: int)
    requires w.Valid() && 0 <= k < |w.piles| && 0 <= i < |w.piles[k].members|
    modifies w
    ensures w.Valid()
    ensures |w.piles| == |old(w.piles)| && i <= |w.piles[k].members|
    ensures |old(w.obstacles)| - |w.obstacles| == Total(old(w.piles)) - Total(w.piles)
    ensures var id := old(w.piles[k].members[i]);
            id in w.store && !w.store[id].pushing ==> w.store[id].y <= old(w.store[id]).y - old(w.store[id]).height as real
    ensures forall x :: x in w.store ==> x in old(w.store)
    ensures w.nextId == old(w.nextId) && w.player == old(w.player) && w.story == old(w.story)
    ensures w.score == old(w.score) && w.highScore == old(w.highScore) && w.gameOver == old(w.gameOver)
  {
    var id := w.piles[k].members[i];
    w.Push(k, i);
    if id in w.store && !w.store[id].pushing {
      var _ := Settle(w, id);
    }
  }

  /** The grounded loop: segment by segment, each list from its end to its
      start. Obstacles leave the segments only by leaving the game. */
  method ApplyPushes(w: World)
    requires w.Valid()
    modifies w
    ensures w.Valid()
    ensures |old(w.obstacles)| - |w.obstacles| == Total(old(w.piles)) - Total(w.piles)
    ensures forall x :: x in w.store ==> x in old(w.store)
    ensures w.nextId == old(w.nextId) && w.player == old(w.player) && w.story == old(w.story)
    ensures w.score == old(w.score) && w.highScore == old(w.highScore) && w.gameOver == old(w.gameOver)
  {
    for k := 0 to |w.piles|
      invariant w.Valid() && |w.piles| == |old(w.piles)|
      invariant |old(w.obstacles)| - |w.obstacles| == Total(old(w.piles)) - Total(w.piles)
      invariant forall x :: x in w.store ==> x in old(w.store)
      invariant w.nextId == old(w.nextId) && w.player == old(w.player) && w.story == old(w.story)
      invariant w.score == old(w.score) && w.highScore == old(w.highScore) && w.gameOver == old(w.gameOver)
    {
      var i := |w.piles[k].members|;
      while i > 0
        invariant w.Valid() && |w.piles| == |old(w.piles)|
        invariant 0 <= i <= |w.piles[k].members|
        invariant |old(w.obstacles)| - |w.obstacles| == Total(old(w.piles)) - Total(w.piles)
        invariant forall x :: x in w.store ==> x in old(w.store)
        invariant w.nextId == old(w.nextId) && w.player == old(w.player) && w.story == old(w.story)
        invariant w.score == old(w.score) && w.highScore == old(w.highScore) && w.gameOver == old(w.gameOver)
      {
        i := i - 1;
        PushOne(w, k, i);
      }
    }
  }

  /* ---------- The obstacle lifecycle ---------- */

  /** A falling obstacle comes to rest with its bottom at `restY` and joins
      the segment under its centre, leaving the countdown alone. */
  method LandOn(w: World, id: Id, moved: Obstacle, restY: real)
    requires w.Valid() && id in w.store && id !in PileIds(w.piles) && Shaped(moved)
    modifies w
    ensures w.Valid()
    ensures w.store == old(w.store)[id := Land(moved, restY)]
    ensures var k := SegmentIndexFor(CentreX(moved));
            w.piles == if 0 <= k < |old(w.piles)| then AddToSegment(old(w.piles), k, id) else old(w.piles)
    ensures w.obstacles == old(w.obstacles) && w.nextId == old(w.nextId) && w.player == old(w.player)
    ensures w.story == old(w.story)
    ensures w.score == old(w.score) && w.highScore == old(w.highScore) && w.gameOver == old(w.gameOver)
  {
    w.SetObstacle(id, Land(moved, restY));
    w.AddToPile(id, false);
  }

  /** The store and segments after obstacle `id`, of record `o`, falls one
      tick past the grounded obstacles `gs`: overlapping one of them, it lands
      on the first one's top and joins the segment under its centre;
      otherwise it only moves. */
  ghost predicate Fallen(o: Obstacle, gs: seq<seq<Obstacle>>, id: Id,
                         store0: map<Id, Obstacle>, piles0: seq<Segment>,
                         store: map<Id, Obstacle>, piles: seq<Segment>)
  {
    var m := Fall(o);
    var gc := GroundCollision(m, gs);
    if gc.Some? then
      && store == store0[id := Land(m, gc.value.y)]
      && var k := SegmentIndexFor(CentreX(m));
         piles == if 0 <= k < |piles0| then AddToSegment(piles0, k, id) else piles0
    else
      store == store0[id := m] && piles == piles0
  }

  /** An airborne obstacle never deflected falls; overlapping a grounded
      obstacle, it lands on that obstacle's top and joins the segment under
      its centre. Landing on a pile leaves the countdown alone. */
  method FallStep(w: World, id: Id)
    requires w.Valid() && id in w.store && !w.store[id].onGround && !w.store[id].deflected
    modifies w
    ensures w.Valid()
    ensures Fallen(old(w.store[id]), old(w.Grounded()), id, old(w.store), old(w.piles), w.store, w.piles)
    ensures id in w.store && w.store == old(w.store)[id := w.store[id]]
    ensures Total(w.piles) >= Total(old(w.piles))
    ensures w.obstacles == old(w.obstacles) && w.nextId == old(w.nextId) && w.player == old(w.player)
    ensures w.story == old(w.story)
    ensures w.score == old(w.score) && w.highScore == old(w.highScore) && w.gameOver == old(w.gameOver)
  {
    var moved := Fall(w.store[id]);
    var gs: seq<seq<Obstacle>> := w.Grounded();
    var gc := FindGroundCollision(moved, gs);
    if gc.Some? {
      w.AirborneNotPiled(id);
      LandOn(w, id, moved, gc.value.y);
    } else {
      w.SetObstacle(id, moved);
    }
  }

  /** Movement of an airborne obstacle: a deflected one flies through the
      piles, any other falls. */
  method MoveAirborne(w: World, id: Id)
    requires w.Valid() && id in w.store && !w.store[id].onGround
    modifies w
    ensures w.Valid()
    ensures old(w.store[id]).deflected ==> w.store == old(w.store)[id := Fly(old(w.store[id]))] && w.piles == old(w.piles)
    ensures !old(w.store[id]).deflected ==>
              Fallen(old(w.store[id]), old(w.Grounded()), id, old(w.store), old(w.piles), w.store, w.piles)
    ensures id in w.store && w.store == old(w.store)[id := w.store[id]]
    ensures Total(w.piles) >= Total(old(w.piles))
    ensures w.obstacles == old(w.obstacles) && w.nextId == old(w.nextId) && w.player == old(w.player)
    ensures w.story == old(w.story)
    ensures w.score == old(w.score) && w.highScore == old(w.highScore) && w.gameOver == old(w.gameOver)
  {
    if w.store[id].deflected {
      w.SetObstacle(id, Fly(w.store[id]));
    } else {
      FallStep(w, id);
    }
  }

  /** An airborne obstacle moves and may be struck by the umbrella. */
  method MoveAndStrike(w: World, id: Id)
    requires w.Valid() && id in w.store && !w.store[id].onGround
    modifies w
    ensures w.Valid()
    ensures id in w.store && w.store == old(w.store)[id := w.store[id]]
    ensures w.obstacles == old(w.obstacles) && w.nextId == old(w.nextId) && w.player == old(w.player)
    ensures w.score >= old(w.score) && w.highScore == old(w.highScore) && w.gameOver == old(w.gameOver)
    ensures Total(w.piles) >= Total(old(w.piles))
  {
    MoveAirborne(w, id);
    ghost var moved := w.store;
    assert id in moved && moved == old(w.store)[id := moved[id]];
    w.Strike(id);
    UpdateTwice(old(w.store), id, moved[id], w.store[id]);
  }

  /** While learning (and not meditating), an airborne, undeflected obstacle
      whose box overlaps the player's teaches instead of killing. */
  method LearnCheck(w: World, id: Id, message: int)
    requires w.Valid() && id in w.store && 0 <= message < MESSAGE_COUNT
    modifies w
    ensures w.Valid()
    ensures var o := old(w.store[id]);
            if old(w.story.choiceMade) == Learn && old(w.story.secondChoiceMade) != Meditate &&
               !o.deflected && !o.onGround && CheckCollision(BoxOf(o), PlayerBox(old(w.player))) then
              w.store == old(w.store)[id := NudgeAway(o, old(w.player.x))] && w.story == AfterTouch(old(w.story), message)
            else
              w.store == old(w.store) && w.story == old(w.story)
    ensures id in w.store && w.store == old(w.store)[id := w.store[id]]
    ensures w.obstacles == old(w.obstacles) && w.nextId == old(w.nextId) && w.piles == old(w.piles)
    ensures w.player == old(w.player) && w.score == old(w.score) && w.highScore == old(w.highScore) && w.gameOver == old(w.gameOver)
  {
    var o := w.store[id];
    if w.story.choiceMade == Learn && w.story.secondChoiceMade != Meditate && !o.deflected && !o.onGround &&
       CheckCollision(BoxOf(o), PlayerBox(w.player)) {
      w.LearnFromTouch(message);
      w.SetObstacle(id, NudgeAway(o, w.player.x));
    }
  }

  /** Outside learning, or while meditating, an airborne, undeflected
      obstacle whose box overlaps the player's ends the game. */
  method ContactCheck(w: World, id: Id)
    requires w.Valid() && id in w.store
    modifies w
    ensures w.Valid()
    ensures var o := old(w.store[id]);
            if (old(w.story.choiceMade) != Learn || old(w.story.secondChoiceMade) == Meditate) &&
               !o.deflected && !o.onGround && CheckCollision(BoxOf(o), PlayerBox(old(w.player))) then
              w.gameOver && w.highScore == HighScoreAfterGameOver(old(w.score), old(w.highScore))
            else
              w.gameOver == old(w.gameOver) && w.highScore == old(w.highScore)
    ensures w.highScore >= old(w.highScore) && (old(w.gameOver) ==> w.gameOver)
    ensures w.store == old(w.store) && w.obstacles == old(w.obstacles) && w.nextId == old(w.nextId) && w.piles == old(w.piles)
    ensures w.player == old(w.player) && w.story == old(w.story) && w.score == old(w.score)
  {
    var o := w.store[id];
    if (w.story.choiceMade != Learn || w.story.secondChoiceMade == Meditate) && !o.deflected && !o.onGround &&
       CheckCollision(BoxOf(o), PlayerBox(w.player)) {
      w.EndGame();
    }
  }

  /** An obstacle may teach or kill by touching the player. */
  method TouchPlayer(w: World, id: Id, message: int)
    requires w.Valid() && id in w.store && 0 <= message < MESSAGE_COUNT
    modifies w
    ensures w.Valid()
    ensures id in w.store && w.store == old(w.store)[id := w.store[id]]
    ensures w.obstacles == old(w.obstacles) && w.nextId == old(w.nextId) && w.player == old(w.player)
    ensures w.piles == old(w.piles) && w.score == old(w.score)
    ensures w.highScore >= old(w.highScore) && (old(w.gameOver) ==> w.gameOver)
  {
    LearnCheck(w, id, message);
    ContactCheck(w, id);
  }

  /** An airborne obstacle whose bottom has reached ground level lands on
      the ground, deflected or not, and joins the segment under its centre;
      only one never deflected winds the countdown up. */
  method GroundLanding(w: World, id: Id)
    requires w.Valid() && id in w.store
    modifies w
    ensures w.Valid()
    ensures var o := old(w.store[id]);
            if !o.onGround && o.y + o.height as real >= GROUND_LEVEL as real then
              && w.store == old(w.store)[id := Land(o, GROUND_LEVEL as real)]
              && var k := SegmentIndexFor(CentreX(o));
                 if 0 <= k < |old(w.piles)| then
                   w.piles == AddToSegment(old(w.piles), k, id) &&
                   w.story == (if o.deflected then old(w.story) else AfterLanding(old(w.story)))
                 else
                   w.piles == old(w.piles) && w.story == old(w.story)
            else
              w.store == old(w.store) && w.piles == old(w.piles) && w.story == old(w.story)
    ensures id in w.store && w.store == old(w.store)[id := w.store[id]]
    ensures Total(w.piles) >= Total(old(w.piles))
    ensures w.obstacles == old(w.obstacles) && w.nextId == old(w.nextId) && w.player == old(w.player)
    ensures w.score == old(w.score) && w.highScore == old(w.highScore) && w.gameOver == old(w.gameOver)
  {
    var o := w.store[id];
    if !o.onGround && o.y + o.height as real >= GROUND_LEVEL as real {
      w.AirborneNotPiled(id);
      w.SetObstacle(id, Land(o, GROUND_LEVEL as real));
      w.AddToPile(id, !o.deflected);
    }
  }

  /** An airborne obstacle's turn: it moves, may be struck by the umbrella,
      may teach or kill by touch, and lands once it reaches the ground. */
  method StepAirborne(w: World, id: Id, message: int)
    requires w.Valid() && id in w.store && !w.store[id].onGround && 0 <= message < MESSAGE_COUNT
    modifies w
    ensures w.Valid()
    ensures id in w.store && w.store == old(w.store)[id := w.store[id]]
    ensures w.obstacles == old(w.obstacles) && w.nextId == old(w.nextId) && w.player == old(w.player)
    ensures w.score >= old(w.score) && w.highScore >= old(w.highScore) && (old(w.gameOver) ==> w.gameOver)
    ensures Total(w.piles) >= Total(old(w.piles))
  {
    ghost var s0 := w.store;
    MoveAndStrike(w, id);
    ghost var s1 := w.store;
    TouchPlayer(w, id, message);
    UpdateTwice(s0, id, s1[id], w.store[id]);
    ghost var s2 := w.store;
    GroundLanding(w, id);
    UpdateTwice(s0, id, s2[id], w.store[id]);
  }

  /** One pass of the obstacle loop over list position i: a grounded
      obstacle is left alone; an airborne one takes its turn and leaves the
      list when it ends up airborne and off screen. */
  method StepObstacle(w: World, i: int, message: int) returns (ghost after: Obstacle)
    requires w.Valid() && 0 <= i < |w.obstacles| && 0 <= message < MESSAGE_COUNT
    modifies w
    ensures w.Valid()
    ensures i <= |w.obstacles| && w.obstacles[..i] == old(w.obstacles)[..i]
    ensures w.obstacles == old(w.obstacles) || w.obstacles == RemoveAt(old(w.obstacles), i)
    ensures old(w.obstacles)[i] in w.store <==> w.obstacles == old(w.obstacles)
    ensures old(w.obstacles)[i] in w.store ==> w.store[old(w.obstacles)[i]] == after
    ensures old(w.obstacles)[i] !in w.store <==> !after.onGround && OffScreen(after)
    ensures forall x :: x in w.store ==> x in old(w.store)
    ensures forall x :: x in old(w.store) && x != old(w.obstacles)[i] ==> x in w.store && w.store[x] == old(w.store)[x]
    ensures old(w.store)[old(w.obstacles)[i]].onGround ==>
              && w.store == old(w.store) && w.obstacles == old(w.obstacles) && w.piles == old(w.piles)
              && w.story == old(w.story) && w.score == old(w.score) && w.gameOver == old(w.gameOver)
    ensures w.nextId == old(w.nextId) && w.player == old(w.player)
    ensures w.score >= old(w.score) && w.highScore >= old(w.highScore) && (old(w.gameOver) ==> w.gameOver)
    ensures Total(w.piles) >= Total(old(w.piles))
  {
    var id := w.obstacles[i];
    after := w.store[id];
    if w.store[id].onGround {
      return;
    }
    StepAirborne(w, id, message);
    after := w.store[id];
    w.RemoveIfGone(i);
  }

  /** The obstacle loop, from the end of the list to its start. Grounded
      obstacles come through untouched and only airborne ones leave. */
  method StepObstacles(w: World, message: int)
    requires w.Valid() && 0 <= message < MESSAGE_COUNT
    modifies w
    ensures w.Valid()
    ensures forall x :: x in w.store ==> x in old(w.store)
    ensures forall x :: x in old(w.store) && old(w.store)[x].onGround ==> x in w.store && w.store[x] == old(w.store)[x]
    ensures w.nextId == old(w.nextId) && w.player == old(w.player)
    ensures w.score >= old(w.score) && w.highScore >= old(w.highScore) && (old(w.gameOver) ==> w.gameOver)
    ensures Total(w.piles) >= Total(old(w.piles))
  {
    var i := |w.obstacles|;
    while i > 0
      invariant 0 <= i <= |w.obstacles|
      invariant w.Valid()
      invariant w.obstacles[..i] == old(w.obstacles)[..i]
      invariant forall x :: x in w.store ==> x in old(w.store)
      invariant forall x :: x in old(w.store) && old(w.store)[x].onGround ==> x in w.store && w.store[x] == old(w.store)[x]
      invariant w.nextId == old(w.nextId) && w.player == old(w.player)
      invariant w.score >= old(w.score) && w.highScore >= old(w.highScore) && (old(w.gameOver) ==> w.gameOver)
      invariant Total(w.piles) >= Total(old(w.piles))
    {
      i := i - 1;
      ghost var after := StepObstacle(w, i, message);
    }
  }

  /* ---------- The tick ---------- */

  /** The obstacle loop, then the push marking (umbrella open) and the
      grounded loop. */
  method ObstaclePhase(w: World, message: int)
    requires w.Valid() && 0 <= message < MESSAGE_COUNT
    modifies w
    ensures w.Valid()
    ensures forall x :: x in w.store ==> x in old(w.store)
    ensures w.nextId == old(w.nextId) && w.player == old(w.player)
    ensures w.score >= old(w.score) && w.highScore >= old(w.highScore) && (old(w.gameOver) ==> w.gameOver)
  {
    StepObstacles(w, message);
    MarkPushes(w);
    ApplyPushes(w);
  }

  /** One tick of the earlier revision. Nothing happens after a game over or
      while the choice overlay is shown. Otherwise: the message timer and the
      second-choice offer, the player's move and umbrella, the obstacle loop,
      the push marking and the grounded loop, the spawn of `spawn` if any,
      and the pile hazard. `message` stands for the random choice of
      knowledge message. */
  method Update(w: World, keys: Keys, message: int, spawn: Option<Obstacle>)
    requires w.Valid() && 0 <= message < MESSAGE_COUNT
    requires spawn.Some? ==> Spawnable(spawn.value)
    modifies w
    ensures w.Valid()
    ensures old(w.gameOver) || old(w.story.showingChoice) ==>
              && w.store == old(w.store) && w.obstacles == old(w.obstacles) && w.piles == old(w.piles)
              && w.player == old(w.player) && w.story == old(w.story)
              && w.score == old(w.score) && w.highScore == old(w.highScore) && w.gameOver == old(w.gameOver)
    ensures w.score >= old(w.score) && w.highScore >= old(w.highScore) && (old(w.gameOver) ==> w.gameOver)
    ensures !old(w.gameOver) && !old(w.story.showingChoice) && (exists k :: 0 <= k < |w.piles| && w.piles[k].count >= 10) ==>
              w.gameOver
  {
    if w.gameOver || w.story.showingChoice {
      return;
    }
    w.BeginTick();
    w.PlayerPhase(keys);
    ObstaclePhase(w, message);
    if spawn.Some? {
      w.Spawn(spawn.value);
    }
    w.CheckPileHazard();
  }
}
