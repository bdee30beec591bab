/** Falling objects: their record, how one is spawned, and the per-tick steps
    that move, land and deflect a single obstacle. */
module Obstacles {
  import opened Constants
  import opened Geometry
  import opened Rules

  datatype Option<T> = None | Some(value: T)

  /** The four kinds of falling object. */
  datatype Kind = Cat | Meteor | Boot | Can

  /** A point of a meteor's trail. */
  datatype Point = Point(x: real, y: real)

  /** One falling, flying or grounded object. `pushing` and `pushVelocityX`
      describe a grounded object being shoved along the ground. */
  datatype Obstacle = Obstacle(
    x: real, y: real, width: int, height: int,
    velocityX: real, velocityY: real,
    kind: Kind, mask: Mask,
    deflected: bool, onGround: bool,
    trail: seq<Point>,
    pushing: bool, pushVelocityX: real)

  /** Width of a kind's sprite in mask cells; every sprite is 16 cells high. */
  function KindWidth(k: Kind): int
  {
    if k == Can then 12 else 16
  }

  /** The obstacle's bounding box. */
  function BoxOf(o: Obstacle): Box
  {
    Box(o.x, o.y, o.width as real, o.height as real)
  }

  /** Drawn size: twice the kind's sprite size. */
  ghost predicate Shaped(o: Obstacle)
  {
    o.width == SPRITE_SCALE * KindWidth(o.kind) && o.height == SPRITE_SCALE * 16
  }

  /** A freshly created obstacle: drawn at twice its sprite size, just above
      the screen, falling, with no trail and no push. A meteor flies at speed
      3 within 30 degrees of vertical and enters from the side it drifts away
      from; the others fall straight at a speed in [2, 3) from a random column. */
  ghost predicate Spawnable(o: Obstacle)
  {
    && Shaped(o)
    && Rectangular(o.mask) && |o.mask| == 16 && |o.mask[0]| == KindWidth(o.kind)
    && o.y == -(o.height as real)
    && !o.deflected && !o.onGround && o.trail == [] && !o.pushing && o.pushVelocityX == 0.0
    && (if o.kind == Meteor then
          && -1.5 <= o.velocityX <= 1.5 && o.velocityY > 0.0
          && (o.velocityX < 0.0 ==> o.x == (GAME_WIDTH + o.width) as real)
          && (o.velocityX > 0.0 ==> o.x == -(o.width as real))
          && (o.velocityX == 0.0 ==> 0.0 <= o.x < (GAME_WIDTH - o.width) as real)
        else
          && o.velocityX == 0.0 && 2.0 <= o.velocityY < 3.0
          && 0.0 <= o.x < (GAME_WIDTH - o.width) as real)
  }

  /** The trail after a meteor at centre `p` moves on: `p` first, then the
      previous points, keeping at most eight. */
  function PushTrail(trail: seq<Point>, p: Point): (r: seq<Point>)
    ensures |trail| <= TRAIL_LENGTH ==> |r| <= TRAIL_LENGTH
    ensures 1 <= |r| <= |trail| + 1 && r[0] == p
    ensures r[1..] == trail[..|r| - 1]
    ensures |trail| < TRAIL_LENGTH ==> |r| == |trail| + 1
  {
    var t := [p] + trail;
    if |t| > TRAIL_LENGTH then t[..|t| - 1] else t
  }

  /** Centre of the obstacle. */
  function Centre(o: Obstacle): Point
  {
    Point(o.x + o.width as real / 2.0, o.y + o.height as real / 2.0)
  }

  /** One tick of free fall for an obstacle not yet deflected: a meteor
      records its centre in its trail, then the obstacle moves by its velocity. */
  function Fall(o: Obstacle): (r: Obstacle)
    ensures r.x == o.x + o.velocityX && r.y == o.y + o.velocityY
    ensures r.trail == (if o.kind == Meteor then PushTrail(o.trail, Centre(o)) else o.trail)
    ensures r == o.(x := r.x, y := r.y, trail := r.trail)
  {
    var t := if o.kind == Meteor then PushTrail(o.trail, Centre(o)) else o.trail;
    o.(trail := t, y := o.y + o.velocityY, x := o.x + o.velocityX)
  }

  /** One tick of flight for a deflected obstacle: gravity pulls it down and it
      loses its trail. */
  function Fly(o: Obstacle): (r: Obstacle)
    ensures r.velocityY == o.velocityY + GRAVITY
    ensures r.x == o.x + o.velocityX && r.y == o.y + r.velocityY
    ensures r.trail == []
    ensures r == o.(x := r.x, y := r.y, velocityY := r.velocityY, trail := [])
  {
    var vy := o.velocityY + GRAVITY;
    o.(velocityY := vy, y := o.y + vy, x := o.x + o.velocityX, trail := [])
  }

  /** The obstacle comes to rest with its bottom edge at `restY`: grounded,
      still, without a trail; its column and flags are kept. */
  function Land(o: Obstacle, restY: real): (r: Obstacle)
    ensures r.onGround && r.y + r.height as real == restY
    ensures r.velocityX == 0.0 && r.velocityY == 0.0 && r.trail == []
    ensures r.x == o.x && r.deflected == o.deflected && r.kind == o.kind && r.mask == o.mask
    ensures r.width == o.width && r.height == o.height
    ensures r.pushing == o.pushing && r.pushVelocityX == o.pushVelocityX
  {
    o.(y := restY - o.height as real, onGround := true, velocityY := 0.0, velocityX := 0.0, trail := [])
  }

  /** The umbrella's box above a player standing at (px, py): wider in fight
      mode, and in both modes centred over the player's right edge. */
  function UmbrellaBox(px: real, py: real, c: Choice): (b: Box)
    ensures b.y + b.height == py && b.height == 32.0
    ensures b.x + b.width / 2.0 == px + PLAYER_WIDTH as real
    ensures b.width == (if c == Fight then 64.0 else 48.0)
  {
    var size := if c == Fight then 64.0 else 48.0;
    var offset := if c == Fight then -16.0 else -8.0;
    Box(px + offset, py - 32.0, size, 32.0)
  }

  /** Struck by the umbrella: flung upward at the push force, sideways away
      from the player in proportion to the distance. */
  function Deflect(o: Obstacle, px: real): (r: Obstacle)
    ensures r.deflected && r.velocityY == -UMBRELLA_PUSH_FORCE
    ensures r.velocityX * 10.0 == o.x - px
    ensures (r.velocityX > 0.0 <==> o.x > px) && (r.velocityX < 0.0 <==> o.x < px)
    ensures r == o.(deflected := true, velocityY := r.velocityY, velocityX := r.velocityX)
  {
    o.(deflected := true, velocityY := -UMBRELLA_PUSH_FORCE, velocityX := (o.x - px) / 10.0)
  }

  /** Touched while learning: pushed gently up and away from the player. */
  function NudgeAway(o: Obstacle, px: real): (r: Obstacle)
    ensures r.deflected && r.velocityY == -2.0
    ensures r.velocityX * 20.0 == o.x - px
    ensures (r.velocityX > 0.0 <==> o.x > px) && (r.velocityX < 0.0 <==> o.x < px)
    ensures r == o.(deflected := true, velocityY := r.velocityY, velocityX := r.velocityX)
  {
    o.(deflected := true, velocityY := -2.0, velocityX := (o.x - px) / 20.0)
  }

  /** Far enough outside the screen to be discarded: 50 below it, or 100 above
      or to either side. */
  predicate OffScreen(o: Obstacle)
  {
    o.y > (GAME_HEIGHT + 50) as real || o.y < -100.0 || o.x < -100.0 || o.x > (GAME_WIDTH + 100) as real
  }

  /** A fresh obstacle is not yet off screen. */
  lemma SpawnedOnScreen(o: Obstacle)
    requires Spawnable(o)
    ensures !OffScreen(o)
  {
  }

  /** The x coordinate by which an obstacle is assigned to a ground segment. */
  function CentreX(o: Obstacle): real
  {
    o.x + o.width as real / 2.0
  }

  /** A pushed grounded obstacle's speed after one tick of friction: 95% of
      it, or stopped (no longer pushing) once below 0.1. */
  datatype Slide = Slide(velocity: real, pushing: bool)

  function Friction(v: real, pushing: bool): (r: Slide)
    ensures r.velocity == 0.0 || r.velocity == v * 0.95
    ensures r.velocity == 0.0 <==> -0.1 < v * 0.95 < 0.1
    ensures r.pushing <==> pushing && r.velocity != 0.0
    ensures (r.velocity > 0.0 ==> v > 0.0) && (r.velocity < 0.0 ==> v < 0.0)
  {
    var nv := v * 0.95;
    if -0.1 < nv < 0.1 then Slide(0.0, false) else Slide(nv, pushing)
  }

  /** Friction only slows: the speed never grows and never changes sign. */
  lemma FrictionSlows(v: real, pushing: bool)
    ensures var r := Friction(v, pushing).velocity;
            (v >= 0.0 ==> 0.0 <= r <= v) && (v <= 0.0 ==> v <= r <= 0.0)
  {
  }

  /** Pushed off screen: entirely left of the screen or past its right edge. */
  predicate PushedOff(o: Obstacle)
  {
    o.x < -(o.width as real) || o.x > GAME_WIDTH as real
  }

  /** Push direction: away from the player's centre, +1 to the right when the
      player's centre is strictly left of the obstacle's. */
  function PushDirection(playerX: real, o: Obstacle): (d: real)
    ensures d == 1.0 || d == -1.0
    ensures d == 1.0 <==> playerX + PLAYER_WIDTH as real / 2.0 < CentreX(o)
  {
    if playerX + PLAYER_WIDTH as real / 2.0 < CentreX(o) then 1.0 else -1.0
  }

  /** One tick of a push: the obstacle slides by its push speed, then
      friction slows it. */
  function Slid(g: Obstacle): Obstacle
  {
    var f := Friction(g.pushVelocityX, g.pushing);
    g.(x := g.x + g.pushVelocityX, pushVelocityX := f.velocity, pushing := f.pushing)
  }

  /** A slide only moves the obstacle sideways and slows it. */
  lemma SlideKeepsShape(g: Obstacle)
    ensures Slid(g).y == g.y && Slid(g).onGround == g.onGround && Slid(g).deflected == g.deflected
    ensures Slid(g).width == g.width && Slid(g).height == g.height && Slid(g).kind == g.kind
    ensures g.pushVelocityX >= 0.0 ==> 0.0 <= Slid(g).pushVelocityX <= g.pushVelocityX
    ensures g.pushVelocityX <= 0.0 ==> g.pushVelocityX <= Slid(g).pushVelocityX <= 0.0
  {
    FrictionSlows(g.pushVelocityX, g.pushing);
  }
}
