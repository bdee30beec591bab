/** The tick of the later revision (v1.3, src/game.js): pixel-accurate
    resting positions against the piles, pixel-accurate contact with the
    player, pushing by touch, and the obstacle lifecycle in which no
    grounded obstacle is ever a deflected one. */
module Revision13 {
  import opened Constants
  import opened Geometry
  import opened Lists
  import opened Piles
  import opened Rules
  import opened Obstacles
  import opened Story
  import opened Game

  /* ---------- Column scans ---------- */

  /** Pixel (lx, ly) of a sprite drawn at two screen pixels per cell is solid. */
  predicate SolidAt(m: Mask, lx: real, ly: int)
  {
    IsPixelSolid(m, lx, ly as real, SPRITE_SCALE)
  }

  /** The lowest solid pixel of column lx strictly above row `y`, or -1. */
  function BottomSolid(m: Mask, lx: real, y: int): (b: int)
    decreases y
    ensures b == -1 || (0 <= b < y && SolidAt(m, lx, b))
    ensures forall y' :: 0 <= y' < y && b < y' ==> !SolidAt(m, lx, y')
  {
    if y <= 0 then -1
    else if SolidAt(m, lx, y - 1) then y - 1
    else BottomSolid(m, lx, y - 1)
  }

  /** The highest solid pixel of column lx in rows [y, h), or -1. */
  function TopSolid(m: Mask, lx: real, y: int, h: int): (t: int)
    decreases h - y
    ensures t == -1 || (y <= t < h && SolidAt(m, lx, t))
    ensures forall y' :: y <= y' < h && (t == -1 || y' < t) ==> !SolidAt(m, lx, y')
  {
    if y >= h then -1
    else if SolidAt(m, lx, y) then y
    else TopSolid(m, lx, y + 1, h)
  }

  /** Scans column lx of a sprite `h` pixels high from the bottom up. */
  method ScanDown(m: Mask, lx: real, h: int) returns (b: int)
    requires 0 <= h
    ensures b == BottomSolid(m, lx, h)
  {
    var y := h - 1;
    while y >= 0
      invariant -1 <= y < h
      invariant BottomSolid(m, lx, h) == BottomSolid(m, lx, y + 1)
    {
      if SolidAt(m, lx, y) {
        return y;
      }
      y := y - 1;
    }
    return -1;
  }

  /** Scans column lx of a sprite `h` pixels high from the top down. */
  method ScanUp(m: Mask, lx: real, h: int) returns (t: int)
    requires 0 <= h
    ensures t == TopSolid(m, lx, 0, h)
  {
    var y := 0;
    while y < h
      invariant 0 <= y <= h
      invariant TopSolid(m, lx, 0, h) == TopSolid(m, lx, y, h)
    {
      if SolidAt(m, lx, y) {
        return y;
      }
      y := y + 1;
    }
    return -1;
  }

  /* ---------- Resting position ---------- */

  /** The x ranges of a falling and a grounded obstacle strictly overlap. */
  predicate XOverlap(o: Obstacle, g: Obstacle)
  {
    o.x < g.x + g.width as real && o.x + o.width as real > g.x
  }

  /** The screen x of the c-th column examined, every two pixels from the
      left of the overlap. */
  function ColumnX(o: Obstacle, g: Obstacle, c: int): real
  {
    Max(o.x, g.x) + 2.0 * c as real
  }

  /** Column c lies inside the horizontal overlap. */
  predicate IsColumn(o: Obstacle, g: Obstacle, c: int)
  {
    0 <= c && ColumnX(o, g, c) < Min(o.x + o.width as real, g.x + g.width as real)
  }

  /** The falling obstacle's y at which, in column c, the lowest solid pixel
      of the faller sits just above the highest solid pixel of the grounded
      obstacle; None when either column is empty. */
  function ColumnRest(o: Obstacle, g: Obstacle, c: int): Option<real>
  {
    var fb := BottomSolid(o.mask, ColumnX(o, g, c) - o.x, o.height);
    var gt := TopSolid(g.mask, ColumnX(o, g, c) - g.x, 0, g.height);
    if fb == -1 || gt == -1 then None else Some(g.y + gt as real - (fb + 1) as real)
  }

  /** At the column's rest value every solid pixel of the faller's column is
      strictly above every solid pixel of the grounded obstacle's column, and
      the lowest of the one touches the highest of the other. */
  lemma RestSeparates(o: Obstacle, g: Obstacle, c: int, y1: int, y2: int)
    requires ColumnRest(o, g, c).Some?
    requires 0 <= y1 < o.height && SolidAt(o.mask, ColumnX(o, g, c) - o.x, y1)
    requires 0 <= y2 < g.height && SolidAt(g.mask, ColumnX(o, g, c) - g.x, y2)
    ensures ColumnRest(o, g, c).value + y1 as real < g.y + y2 as real
    ensures ColumnRest(o, g, c).value + (BottomSolid(o.mask, ColumnX(o, g, c) - o.x, o.height) + 1) as real
            == g.y + TopSolid(g.mask, ColumnX(o, g, c) - g.x, 0, g.height) as real
  {
    var fb := BottomSolid(o.mask, ColumnX(o, g, c) - o.x, o.height);
    var gt := TopSolid(g.mask, ColumnX(o, g, c) - g.x, 0, g.height);
    assert y1 <= fb;
    assert gt <= y2;
  }

  /** Landing treats the rest value as the faller's bottom edge although it
      is the top edge at which the pixels meet, so an obstacle landing on a
      pile column comes to rest a full obstacle height above that contact. */
  lemma LandingOnPileLeavesGap(o: Obstacle, g: Obstacle, c: int, y1: int, y2: int)
    requires ColumnRest(o, g, c).Some?
    requires 0 <= y1 < o.height && SolidAt(o.mask, ColumnX(o, g, c) - o.x, y1)
    requires 0 <= y2 < g.height && SolidAt(g.mask, ColumnX(o, g, c) - g.x, y2)
    ensures Land(o, ColumnRest(o, g, c).value).y + (y1 + o.height) as real < g.y + y2 as real
  {
    RestSeparates(o, g, c, y1, y2);
  }

  /** Column c of grounded obstacle g can hold up the faller. */
  ghost predicate GroundColumn(o: Obstacle, g: Obstacle, c: int)
  {
    XOverlap(o, g) && IsColumn(o, g, c) && ColumnRest(o, g, c).Some?
  }

  /** Column c of the i-th obstacle of segment k can hold up the faller. */
  ghost predicate Candidate(o: Obstacle, gs: seq<seq<Obstacle>>, k: int, i: int, c: int)
  {
    0 <= k < |gs| && 0 <= i < |gs[k]| && GroundColumn(o, gs[k][i], c)
  }

  /** `v` is the resting position for `o` over the grounded obstacles `gs`:
      the least of ground level and every candidate column's rest value. */
  ghost predicate RestingY(o: Obstacle, gs: seq<seq<Obstacle>>, v: real)
  {
    && v <= GROUND_LEVEL as real
    && (forall k, i, c :: Candidate(o, gs, k, i, c) ==> v <= ColumnRest(o, gs[k][i], c).value)
    && (v == GROUND_LEVEL as real ||
        exists k, i, c :: Candidate(o, gs, k, i, c) && v == ColumnRest(o, gs[k][i], c).value)
  }

  /** The resting position is unique. */
  lemma RestingYUnique(o: Obstacle, gs: seq<seq<Obstacle>>, v: real, w: real)
    requires RestingY(o, gs, v) && RestingY(o, gs, w)
    ensures v == w
  {
    if v != GROUND_LEVEL as real {
      var k, i, c :| Candidate(o, gs, k, i, c) && v == ColumnRest(o, gs[k][i], c).value;
      assert w <= v;
    }
    if w != GROUND_LEVEL as real {
      var k, i, c :| Candidate(o, gs, k, i, c) && w == ColumnRest(o, gs[k][i], c).value;
      assert v <= w;
    }
  }

  /** With no grounded obstacle overlapping it horizontally, a faller rests at
      ground level. */
  lemma NoOverlapRestsOnGround(o: Obstacle, gs: seq<seq<Obstacle>>, v: real)
    requires RestingY(o, gs, v)
    requires forall k, i :: 0 <= k < |gs| && 0 <= i < |gs[k]| ==> !XOverlap(o, gs[k][i])
    ensures v == GROUND_LEVEL as real
  {
    assert forall k, i, c :: !Candidate(o, gs, k, i, c);
  }

  /** The least rest value over the columns of one grounded obstacle, and
      `lowest`. */
  method ColumnsMin(o: Obstacle, g: Obstacle, lowest: real) returns (r: real)
    requires 0 <= o.height && 0 <= g.height
    ensures r <= lowest
    ensures forall c :: GroundColumn(o, g, c) ==> r <= ColumnRest(o, g, c).value
    ensures r == lowest || exists c :: GroundColumn(o, g, c) && r == ColumnRest(o, g, c).value
  {
    r := lowest;
    if !XOverlap(o, g) {
      return;
    }
    var left := Max(o.x, g.x);
    var right := Min(o.x + o.width as real, g.x + g.width as real);
    var c := 0;
    while left + 2.0 * c as real < right
      invariant 0 <= c
      invariant r <= lowest
      invariant forall c' :: 0 <= c' < c && GroundColumn(o, g, c') ==> r <= ColumnRest(o, g, c').value
      invariant r == lowest || exists c' :: GroundColumn(o, g, c') && r == ColumnRest(o, g, c').value
      decreases (right - left).Floor - 2 * c
    {
      var wx := left + 2.0 * c as real;
      var fb := ScanDown(o.mask, wx - o.x, o.height);
      if fb != -1 {
        var gt := ScanUp(g.mask, wx - g.x, g.height);
        if gt != -1 {
          var v := (g.y + gt as real) - (fb + 1) as real;
          assert GroundColumn(o, g, c) && ColumnRest(o, g, c) == Some(v);
          if v < r {
            r := v;
          }
        }
      }
      c := c + 1;
    }
  }

  /** The resting position of a falling obstacle: none for a deflected one,
      otherwise the least of ground level and the rest values of every column
      it shares with a grounded obstacle. */
  method FindRestingY(o: Obstacle, gs: seq<seq<Obstacle>>) returns (r: Option<real>)
    requires 0 <= o.height
    requires forall k, i :: 0 <= k < |gs| && 0 <= i < |gs[k]| ==> 0 <= gs[k][i].height
    ensures r.None? <==> o.deflected
    ensures r.Some? ==> RestingY(o, gs, r.value)
  {
    if o.deflected {
      return None;
    }
    var lowest := GROUND_LEVEL as real;
    for k := 0 to |gs|
      invariant lowest <= GROUND_LEVEL as real
      invariant forall k', i, c :: k' < k && Candidate(o, gs, k', i, c) ==> lowest <= ColumnRest(o, gs[k'][i], c).value
      invariant lowest == GROUND_LEVEL as real ||
                exists k', i, c :: Candidate(o, gs, k', i, c) && lowest == ColumnRest(o, gs[k'][i], c).value
    {
      for i := 0 to |gs[k]|
        invariant lowest <= GROUND_LEVEL as real
        invariant forall k', i', c :: (k' < k || (k' == k && i' < i)) && Candidate(o, gs, k', i', c) ==>
                    lowest <= ColumnRest(o, gs[k'][i'], c).value
        invariant lowest == GROUND_LEVEL as real ||
                  exists k', i', c :: Candidate(o, gs, k', i', c) && lowest == ColumnRest(o, gs[k'][i'], c).value
      {
        var next := ColumnsMin(o, gs[k][i], lowest);
        if next != lowest {
          ghost var c :| GroundColumn(o, gs[k][i], c) && next == ColumnRest(o, gs[k][i], c).value;
          assert Candidate(o, gs, k, i, c);
        }
        lowest := next;
      }
    }
    return Some(lowest);
  }

  /* ---------- The obstacle lifecycle ---------- */

  /** No grounded obstacle is a deflected one: landing happens only to an
      obstacle that was never deflected, and both deflections need an
      airborne obstacle. */
  ghost predicate NoDeflectedGrounded(store: map<Id, Obstacle>)
  {
    forall id :: id in store && store[id].onGround ==> !store[id].deflected
  }

  /** Sampled pixel contact between two sprites drawn at two pixels per cell. */
  ghost predicate PixelHit(a: Box, ma: Mask, b: Box, mb: Mask)
  {
    CheckCollision(a, b) && exists i: nat, j: nat :: SampleHit(a, ma, SPRITE_SCALE, b, mb, SPRITE_SCALE, i, j)
  }

  /** A falling obstacle has reached its resting position: it lands there
      and joins the segment under its centre, winding the countdown up. */
  method LandAt(w: World, id: Id, moved: Obstacle, rest: real)
    requires w.Valid() && NoDeflectedGrounded(w.store) && id in w.store && id !in PileIds(w.piles)
    requires Shaped(moved) && !moved.deflected
    modifies w
    ensures w.Valid() && NoDeflectedGrounded(w.store)
    ensures w.store == old(w.store)[id := Land(moved, rest)]
    ensures var k := SegmentIndexFor(CentreX(moved));
            if 0 <= k < |old(w.piles)| then
              w.piles == AddToSegment(old(w.piles), k, id) && w.story == AfterLanding(old(w.story))
            else
              w.piles == old(w.piles) && w.story == old(w.story)
    ensures w.obstacles == old(w.obstacles) && w.nextId == old(w.nextId) && w.player == old(w.player)
    ensures w.score == old(w.score) && w.highScore == old(w.highScore) && w.gameOver == old(w.gameOver)
  {
    w.SetObstacle(id, Land(moved, rest));
    w.AddToPile(id, true);
  }

  /** The store, segments and narrative after obstacle `id`, of record `o`,
      falls one tick past the grounded obstacles `gs`: `rest` is its resting
      position, and once its bottom reaches it, it lands there and joins the
      segment under its centre, winding the countdown up; otherwise it only
      moves. */
  ghost predicate Fallen(o: Obstacle, gs: seq<seq<Obstacle>>, id: Id, rest: real,
                         store0: map<Id, Obstacle>, piles0: seq<Segment>, story0: Narrative,
                         store: map<Id, Obstacle>, piles: seq<Segment>, story: Narrative)
  {
    && RestingY(Fall(o), gs, rest)
    && if Fall(o).y + o.height as real >= rest then
         && store == store0[id := Land(Fall(o), rest)]
         && var k := SegmentIndexFor(CentreX(Fall(o)));
            if 0 <= k < |piles0| then
              piles == AddToSegment(piles0, k, id) && story == AfterLanding(story0)
            else
              piles == piles0 && story == story0
       else
         store == store0[id := Fall(o)] && piles == piles0 && story == story0
  }

  /** An airborne obstacle never deflected falls and, once its bottom has
      reached its resting position, lands. */
  method FallStep(w: World, id: Id) returns (rest: real)
    requires w.Valid() && NoDeflectedGrounded(w.store) && id in w.store
    requires !w.store[id].onGround && !w.store[id].deflected
    modifies w
    ensures w.Valid() && NoDeflectedGrounded(w.store)
    ensures Fallen(old(w.store[id]), old(w.Grounded()), id, rest,
                   old(w.store), old(w.piles), old(w.story), w.store, w.piles, w.story)
    ensures id in w.store && w.store == old(w.store)[id := w.store[id]]
    ensures Total(w.piles) >= Total(old(w.piles))
    ensures w.obstacles == old(w.obstacles) && w.nextId == old(w.nextId) && w.player == old(w.player)
    ensures w.score == old(w.score) && w.highScore == old(w.highScore) && w.gameOver == old(w.gameOver)
  {
    var moved := Fall(w.store[id]);
    var gs: seq<seq<Obstacle>> := w.Grounded();
    assert forall k, i :: 0 <= k < |gs| && 0 <= i < |gs[k]| ==> 0 <= gs[k][i].height;
    var r := FindRestingY(moved, gs);
    rest := r.value;
    if moved.y + moved.height as real >= rest {
      w.AirborneNotPiled(id);
      LandAt(w, id, moved, rest);
    } else {
      w.SetObstacle(id, moved);
    }
  }

  /** Movement of an airborne obstacle: a deflected one flies, any other
      falls and lands once its bottom reaches the resting position `rest`. */
  method MoveAirborne(w: World, id: Id) returns (rest: real)
    requires w.Valid() && NoDeflectedGrounded(w.store) && id in w.store && !w.store[id].onGround
    modifies w
    ensures w.Valid() && NoDeflectedGrounded(w.store)
    ensures old(w.store[id]).deflected ==>
              w.store == old(w.store)[id := Fly(old(w.store[id]))] && w.piles == old(w.piles) && w.story == old(w.story)
    ensures !old(w.store[id]).deflected ==>
              Fallen(old(w.store[id]), old(w.Grounded()), id, rest,
                     old(w.store), old(w.piles), old(w.story), w.store, w.piles, w.story)
    ensures id in w.store && w.store == old(w.store)[id := w.store[id]]
    ensures Total(w.piles) >= Total(old(w.piles))
    ensures w.obstacles == old(w.obstacles) && w.nextId == old(w.nextId) && w.player == old(w.player)
    ensures w.score == old(w.score) && w.highScore == old(w.highScore) && w.gameOver == old(w.gameOver)
  {
    rest := GROUND_LEVEL as real;
    if w.store[id].deflected {
      w.SetObstacle(id, Fly(w.store[id]));
    } else {
      rest := FallStep(w, id);
    }
  }

  /** While learning (and not meditating), an airborne, undeflected obstacle
      touching the player's sprite teaches instead of killing: knowledge
      grows, message `message` shows, and the obstacle is nudged away. */
  method LearnCheck(w: World, id: Id, message: int)
    requires w.Valid() && NoDeflectedGrounded(w.store) && id in w.store && 0 <= message < MESSAGE_COUNT
    modifies w
    ensures w.Valid() && NoDeflectedGrounded(w.store)
    ensures var o := old(w.store[id]);
            if old(w.story.choiceMade) == Learn && old(w.story.secondChoiceMade) != Meditate &&
               !o.deflected && !o.onGround &&
               PixelHit(BoxOf(o), o.mask, PlayerBox(old(w.player)), w.womanMask) then
              w.store == old(w.store)[id := NudgeAway(o, old(w.player.x))] && w.story == AfterTouch(old(w.story), message)
            else
              w.store == old(w.store) && w.story == old(w.story)
    ensures id in w.store && w.store == old(w.store)[id := w.store[id]]
    ensures w.obstacles == old(w.obstacles) && w.nextId == old(w.nextId) && w.piles == old(w.piles)
    ensures w.player == old(w.player) && w.score == old(w.score) && w.highScore == old(w.highScore) && w.gameOver == old(w.gameOver)
  {
    var o := w.store[id];
    if w.story.choiceMade == Learn && w.story.secondChoiceMade != Meditate && !o.deflected && !o.onGround {
      var hit := CheckPixelCollision(BoxOf(o), o.mask, PlayerBox(w.player), w.womanMask, SPRITE_SCALE, SPRITE_SCALE);
      if hit {
        w.LearnFromTouch(message);
        w.SetObstacle(id, NudgeAway(o, w.player.x));
      }
    }
  }

  /** Outside learning, or while meditating, an airborne, undeflected
      obstacle touching the player's sprite ends the game. */
  method ContactCheck(w: World, id: Id)
    requires w.Valid() && NoDeflectedGrounded(w.store) && id in w.store
    modifies w
    ensures w.Valid() && NoDeflectedGrounded(w.store)
    ensures var o := old(w.store[id]);
            if (old(w.story.choiceMade) != Learn || old(w.story.secondChoiceMade) == Meditate) &&
               !o.deflected && !o.onGround &&
               PixelHit(BoxOf(o), o.mask, PlayerBox(old(w.player)), w.womanMask) then
              w.gameOver && w.highScore == HighScoreAfterGameOver(old(w.score), old(w.highScore))
            else
              w.gameOver == old(w.gameOver) && w.highScore == old(w.highScore)
    ensures w.highScore >= old(w.highScore) && (old(w.gameOver) ==> w.gameOver)
    ensures w.store == old(w.store) && w.obstacles == old(w.obstacles) && w.nextId == old(w.nextId) && w.piles == old(w.piles)
    ensures w.player == old(w.player) && w.story == old(w.story) && w.score == old(w.score)
  {
    var o := w.store[id];
    if (w.story.choiceMade != Learn || w.story.secondChoiceMade == Meditate) && !o.deflected && !o.onGround {
      var hit := CheckPixelCollision(BoxOf(o), o.mask, PlayerBox(w.player), w.womanMask, SPRITE_SCALE, SPRITE_SCALE);
      if hit {
        w.EndGame();
      }
    }
  }

  /** An airborne obstacle moves and may be struck by the umbrella. */
  method MoveAndStrike(w: World, id: Id)
    requires w.Valid() && NoDeflectedGrounded(w.store) && id in w.store && !w.store[id].onGround
    modifies w
    ensures w.Valid() && NoDeflectedGrounded(w.store)
    ensures id in w.store && w.store == old(w.store)[id := w.store[id]]
    ensures w.obstacles == old(w.obstacles) && w.nextId == old(w.nextId) && w.player == old(w.player)
    ensures w.score >= old(w.score) && w.highScore == old(w.highScore) && w.gameOver == old(w.gameOver)
    ensures Total(w.piles) >= Total(old(w.piles))
  {
    var _ := MoveAirborne(w, id);
    ghost var moved := w.store;
    assert id in moved && moved == old(w.store)[id := moved[id]];
    w.Strike(id);
    UpdateTwice(old(w.store), id, moved[id], w.store[id]);
  }

  /** An obstacle may teach or kill by touching the player. */
  method TouchPlayer(w: World, id: Id, message: int)
    requires w.Valid() && NoDeflectedGrounded(w.store) && id in w.store && 0 <= message < MESSAGE_COUNT
    modifies w
    ensures w.Valid() && NoDeflectedGrounded(w.store)
    ensures id in w.store && w.store == old(w.store)[id := w.store[id]]
    ensures w.obstacles == old(w.obstacles) && w.nextId == old(w.nextId) && w.player == old(w.player)
    ensures w.piles == old(w.piles) && w.score == old(w.score)
    ensures w.highScore >= old(w.highScore) && (old(w.gameOver) ==> w.gameOver)
  {
    LearnCheck(w, id, message);
    ContactCheck(w, id);
  }

  /** An airborne obstacle's turn: it moves, may be struck by the umbrella,
      and may teach or kill by touching the player. */
  method StepAirborne(w: World, id: Id, message: int)
    requires w.Valid() && NoDeflectedGrounded(w.store) && id in w.store && !w.store[id].onGround
    requires 0 <= message < MESSAGE_COUNT
    modifies w
    ensures w.Valid() && NoDeflectedGrounded(w.store)
    ensures id in w.store && w.store == old(w.store)[id := w.store[id]]
    ensures w.obstacles == old(w.obstacles) && w.nextId == old(w.nextId) && w.player == old(w.player)
    ensures w.score >= old(w.score) && w.highScore >= old(w.highScore) && (old(w.gameOver) ==> w.gameOver)
    ensures Total(w.piles) >= Total(old(w.piles))
  {
    ghost var s0 := w.store;
    MoveAndStrike(w, id);
    ghost var s1 := w.store;
    TouchPlayer(w, id, message);
    UpdateTwice(s0, id, s1[id], w.store[id]);
  }

  /** One pass of the obstacle loop over list position i: a grounded
      obstacle is left alone; an airborne one moves, may be struck by the
      umbrella, may teach or kill by touch, and leaves the list when it ends
      up airborne and off screen. */
  method StepObstacle(w: World, i: int, message: int) returns (ghost after: Obstacle)
    requires w.Valid() && NoDeflectedGrounded(w.store) && 0 <= i < |w.obstacles| && 0 <= message < MESSAGE_COUNT
    modifies w
    ensures w.Valid() && NoDeflectedGrounded(w.store)
    ensures i <= |w.obstacles| && w.obstacles[..i] == old(w.obstacles)[..i]
    ensures w.obstacles == old(w.obstacles) || w.obstacles == RemoveAt(old(w.obstacles), i)
    ensures old(w.obstacles)[i] in w.store <==> w.obstacles == old(w.obstacles)
    ensures old(w.obstacles)[i] in w.store ==> w.store[old(w.obstacles)[i]] == after
    ensures old(w.obstacles)[i] !in w.store <==> !after.onGround && OffScreen(after)
    ensures forall x :: x in w.store ==> x in old(w.store)
    ensures forall x :: x in old(w.store) && x != old(w.obstacles)[i] ==> x in w.store && w.store[x] == old(w.store)[x]
    ensures old(w.store)[old(w.obstacles)[i]].onGround ==>
              && w.store == old(w.store) && w.obstacles == old(w.obstacles) && w.piles == old(w.piles)
              && w.story == old(w.story) && w.score == old(w.score) && w.gameOver == old(w.gameOver)
    ensures w.nextId == old(w.nextId) && w.player == old(w.player)
    ensures w.score >= old(w.score) && w.highScore >= old(w.highScore) && (old(w.gameOver) ==> w.gameOver)
    ensures Total(w.piles) >= Total(old(w.piles))
  {
    var id := w.obstacles[i];
    after := w.store[id];
    if w.store[id].onGround {
      return;
    }
    StepAirborne(w, id, message);
    after := w.store[id];
    w.RemoveIfGone(i);
  }

  /** The obstacle loop, from the end of the list to its start. Grounded
      obstacles come through untouched and only airborne ones leave. */
  method StepObstacles(w: World, message: int)
    requires w.Valid() && NoDeflectedGrounded(w.store) && 0 <= message < MESSAGE_COUNT
    modifies w
    ensures w.Valid() && NoDeflectedGrounded(w.store)
    ensures forall x :: x in w.store ==> x in old(w.store)
    ensures forall x :: x in old(w.store) && old(w.store)[x].onGround ==> x in w.store && w.store[x] == old(w.store)[x]
    ensures w.nextId == old(w.nextId) && w.player == old(w.player)
    ensures w.score >= old(w.score) && w.highScore >= old(w.highScore) && (old(w.gameOver) ==> w.gameOver)
    ensures Total(w.piles) >= Total(old(w.piles))
  {
    var i := |w.obstacles|;
    while i > 0
      invariant 0 <= i <= |w.obstacles|
      invariant w.Valid() && NoDeflectedGrounded(w.store)
      invariant w.obstacles[..i] == old(w.obstacles)[..i]
      invariant forall x :: x in w.store ==> x in old(w.store)
      invariant forall x :: x in old(w.store) && old(w.store)[x].onGround ==> x in w.store && w.store[x] == old(w.store)[x]
      invariant w.nextId == old(w.nextId) && w.player == old(w.player)
      invariant w.score >= old(w.score) && w.highScore >= old(w.highScore) && (old(w.gameOver) ==> w.gameOver)
      invariant Total(w.piles) >= Total(old(w.piles))
    {
      i := i - 1;
      ghost var after := StepObstacle(w, i, message);
    }
  }

  /* ---------- Pushing grounded obstacles ---------- */

  /** A grounded obstacle the open umbrella's bearer touches, and that is not
      already being pushed, starts sliding away from the player at half a
      pixel per tick. */
  ghost function Marked(g: Obstacle, p: Player, womanMask: Mask): (r: Obstacle)
  {
    if !g.pushing && PixelHit(PlayerBox(p), womanMask, BoxOf(g), g.mask) then
      g.(pushVelocityX := PushDirection(p.x, g) * 0.5, pushing := true)
    else g
  }

  /** The mark of this revision, as a function of the obstacle alone. */
  ghost function MarkFor(p: Player, womanMask: Mask): Obstacle -> Obstacle
  {
    g => Marked(g, p, womanMask)
  }

  /** While the umbrella is open, every grounded obstacle held by a segment
      that touches the player is marked as pushed. Each obstacle's outcome
      depends only on itself and the player, so the order of the scan does
      not matter. */
  method MarkPushes(w: World)
    requires w.Valid() && NoDeflectedGrounded(w.store)
    modifies w
    ensures w.Valid() && NoDeflectedGrounded(w.store)
    ensures forall x :: x in w.store <==> x in old(w.store)
    ensures forall x :: x in old(w.store) ==>
              w.store[x] == if old(w.player.umbrella.open) && x in old(PileIds(w.piles))
                            then Marked(old(w.store)[x], old(w.player), w.womanMask)
                            else old(w.store)[x]
    ensures w.piles == old(w.piles) && w.obstacles == old(w.obstacles) && w.nextId == old(w.nextId)
    ensures w.player == old(w.player) && w.story == old(w.story)
    ensures w.score == old(w.score) && w.highScore == old(w.highScore) && w.gameOver == old(w.gameOver)
  {
    if !w.player.umbrella.open {
      return;
    }
    ghost var start := w.store;
    for k := 0 to |w.piles|
      invariant w.Valid() && NoDeflectedGrounded(w.store)
      invariant w.piles == old(w.piles) && w.obstacles == old(w.obstacles) && w.nextId == old(w.nextId)
      invariant w.player == old(w.player) && w.story == old(w.story)
      invariant w.score == old(w.score) && w.highScore == old(w.highScore) && w.gameOver == old(w.gameOver)
      invariant MarkedUpTo(w.piles, w.store, start, MarkFor(w.player, w.womanMask), k, 0)
    {
      for i := 0 to |w.piles[k].members|
        invariant w.Valid() && NoDeflectedGrounded(w.store)
        invariant w.piles == old(w.piles) && w.obstacles == old(w.obstacles) && w.nextId == old(w.nextId)
        invariant w.player == old(w.player) && w.story == old(w.story)
        invariant w.score == old(w.score) && w.highScore == old(w.highScore) && w.gameOver == old(w.gameOver)
        invariant MarkedUpTo(w.piles, w.store, start, MarkFor(w.player, w.womanMask), k, i)
      {
        MarkOne(w, k, i, start);
      }
      RowDone(w.piles, w.store, start, MarkFor(w.player, w.womanMask), k);
    }
    ScanDone(w.piles, w.store, start, MarkFor(w.player, w.womanMask));
  }

  /** The push test for one grounded obstacle: the pixel test against the
      player's sprite, made only for an obstacle not already pushed. */
  method MarkTest(p: Player, womanMask: Mask, g: Obstacle) returns (marked: Obstacle)
    ensures marked == Marked(g, p, womanMask)
  {
    marked := g;
    if !g.pushing {
      var hit := CheckPixelCollision(PlayerBox(p), womanMask, BoxOf(g), g.mask, SPRITE_SCALE, SPRITE_SCALE);
      if hit {
        marked := g.(pushVelocityX := PushDirection(p.x, g) * 0.5, pushing := true);
      }
    }
  }

  /** The scan's step at member i of segment k: the pixel test, and the mark
      when it hits an obstacle not yet pushed. */
  method MarkOne(w: World, k: int, i: int, ghost start: map<Id, Obstacle>)
    requires w.Valid() && NoDeflectedGrounded(w.store)
    requires 0 <= k < |w.piles| && 0 <= i < |w.piles[k].members|
    requires MarkedUpTo(w.piles, w.store, start, MarkFor(w.player, w.womanMask), k, i)
    modifies w
    ensures w.Valid() && NoDeflectedGrounded(w.store)
    ensures w.piles == old(w.piles) && w.obstacles == old(w.obstacles) && w.nextId == old(w.nextId)
    ensures w.player == old(w.player) && w.story == old(w.story)
    ensures w.score == old(w.score) && w.highScore == old(w.highScore) && w.gameOver == old(w.gameOver)
    ensures MarkedUpTo(w.piles, w.store, start, MarkFor(w.player, w.womanMask), k, i + 1)
  {
    var id := w.piles[k].members[i];
    MemberInPileIds(w.piles, k, i);
    var g := w.store[id];
    assert g == start[id];
    var marked := MarkTest(w.player, w.womanMask, g);
    MarkStep(w.piles, w.store, start, MarkFor(w.player, w.womanMask), k, i);
    w.SetObstacle(id, marked);
  }

  /** The push loop: segment by segment, each list from its end to its
      start. An obstacle moved on into a later segment is met again there.
      Obstacles leave the segments only by leaving the game, and obstacles
      without a push speed stay as they were. */
  method ApplyPushes(w: World)
    requires w.Valid() && NoDeflectedGrounded(w.store)
    modifies w
    ensures w.Valid() && NoDeflectedGrounded(w.store)
    ensures |old(w.obstacles)| - |w.obstacles| == Total(old(w.piles)) - Total(w.piles)
    ensures forall x :: x in w.store ==> x in old(w.store)
    ensures forall x :: x in old(w.store) && old(w.store)[x].pushVelocityX == 0.0 ==> x in w.store && w.store[x] == old(w.store)[x]
    ensures w.nextId == old(w.nextId) && w.player == old(w.player) && w.story == old(w.story)
    ensures w.score == old(w.score) && w.highScore == old(w.highScore) && w.gameOver == old(w.gameOver)
  {
    for k := 0 to |w.piles|
      invariant w.Valid() && NoDeflectedGrounded(w.store) && |w.piles| == |old(w.piles)|
      invariant |old(w.obstacles)| - |w.obstacles| == Total(old(w.piles)) - Total(w.piles)
      invariant forall x :: x in w.store ==> x in old(w.store)
      invariant forall x :: x in old(w.store) && old(w.store)[x].pushVelocityX == 0.0 ==> x in w.store && w.store[x] == old(w.store)[x]
      invariant w.nextId == old(w.nextId) && w.player == old(w.player) && w.story == old(w.story)
      invariant w.score == old(w.score) && w.highScore == old(w.highScore) && w.gameOver == old(w.gameOver)
    {
      var i := |w.piles[k].members|;
      while i > 0
        invariant w.Valid() && NoDeflectedGrounded(w.store) && |w.piles| == |old(w.piles)|
        invariant 0 <= i <= |w.piles[k].members|
        invariant |old(w.obstacles)| - |w.obstacles| == Total(old(w.piles)) - Total(w.piles)
        invariant forall x :: x in w.store ==> x in old(w.store)
        invariant forall x :: x in old(w.store) && old(w.store)[x].pushVelocityX == 0.0 ==> x in w.store && w.store[x] == old(w.store)[x]
        invariant w.nextId == old(w.nextId) && w.player == old(w.player) && w.story == old(w.story)
        invariant w.score == old(w.score) && w.highScore == old(w.highScore) && w.gameOver == old(w.gameOver)
      {
        i := i - 1;
        w.Push(k, i);
      }
    }
  }

  /* ---------- The tick ---------- */

  /** One tick of the later revision. Nothing happens after a game over or
      while the choice overlay is shown. Otherwise: the message timer and the
      second-choice offer, the player's move and umbrella, the obstacle loop,
      the push marking (umbrella open) and the push loop, the spawn of
      `spawn` if any, and the pile hazard. `message` stands for the random
      choice of knowledge message. */
  method Update(w: World, keys: Keys, message: int, spawn: Option<Obstacle>)
    requires w.Valid() && NoDeflectedGrounded(w.store) && 0 <= message < MESSAGE_COUNT
    requires spawn.Some? ==> Spawnable(spawn.value)
    modifies w
    ensures w.Valid() && NoDeflectedGrounded(w.store)
    ensures old(w.gameOver) || old(w.story.showingChoice) ==>
              && w.store == old(w.store) && w.obstacles == old(w.obstacles) && w.piles == old(w.piles)
              && w.player == old(w.player) && w.story == old(w.story)
              && w.score == old(w.score) && w.highScore == old(w.highScore) && w.gameOver == old(w.gameOver)
    ensures w.score >= old(w.score) && w.highScore >= old(w.highScore) && (old(w.gameOver) ==> w.gameOver)
    ensures !old(w.gameOver) && !old(w.story.showingChoice) && (exists k :: 0 <= k < |w.piles| && w.piles[k].count >= 10) ==>
              w.gameOver
  {
    if w.gameOver || w.story.showingChoice {
      return;
    }
    w.BeginTick();
    w.PlayerPhase(keys);
    ObstaclePhase(w, message);
    if spawn.Some? {
      w.Spawn(spawn.value);
    }
    w.CheckPileHazard();
  }

  /** The obstacle loop, then the push marking (umbrella open) and the push loop. */
  method ObstaclePhase(w: World, message: int)
    requires w.Valid() && NoDeflectedGrounded(w.store) && 0 <= message < MESSAGE_COUNT
    modifies w
    ensures w.Valid() && NoDeflectedGrounded(w.store)
    ensures w.score >= old(w.score) && w.highScore >= old(w.highScore) && (old(w.gameOver) ==> w.gameOver)
    ensures w.nextId == old(w.nextId)
  {
    StepObstacles(w, message);
    if w.player.umbrella.open {
      MarkPushes(w);
    }
    ApplyPushes(w);
  }
}
