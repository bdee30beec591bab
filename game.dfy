/** The game world shared by both revisions: the player, the obstacles, the
    ground segments and the narrative state, with the operations both
    revisions perform the same way. Obstacles are kept by id in `store`; the
    obstacle list and the segments hold ids, so an obstacle held by both is
    one object. */
module Game {
  import opened Constants
  import opened Geometry
  import opened Lists
  import opened Piles
  import opened Rules
  import opened Obstacles
  import opened Story

  /** The player: position and umbrella. The player's box is always 16 x 24. */
  datatype Player = Player(x: real, y: real, umbrella: Umbrella)

  /** The player's starting column, centred: 256 - 8. */
  const START_X: real := (GAME_WIDTH / 2 - PLAYER_WIDTH / 2) as real

  /** The largest step the player can take in one tick: the faster speed. */
  const MAX_STEP: real := PLAYER_SPEED * 1.5

  function PlayerBox(p: Player): Box
  {
    Box(p.x, p.y, PLAYER_WIDTH as real, PLAYER_HEIGHT as real)
  }

  /** The player's sprite is sampled at two screen pixels per cell against a
      16 x 24 box, so a hit always reads a cell in the top-left 8 x 12 cells
      of the player's mask. */
  lemma PlayerHitReadsTopLeft(a: Box, ma: Mask, p: Player, mb: Mask, i: int, j: int)
    requires SampleHit(a, ma, SPRITE_SCALE, PlayerBox(p), mb, SPRITE_SCALE, i, j)
    ensures exists row, col :: 0 <= row < 12 && 0 <= col < 8 && Cell(mb, row, col)
  {
    var b := PlayerBox(p);
    var x := Max(a.x, b.x) + 2.0 * i as real;
    var y := Max(a.y, b.y) + 2.0 * j as real;
    var lx := x - b.x;
    var ly := y - b.y;
    assert lx < 16.0 && ly < 24.0;
    assert lx / 2.0 < 8.0 && ly / 2.0 < 12.0;
    assert Cell(mb, (ly / 2.0).Floor, (lx / 2.0).Floor);
  }

  /** The ground view the collision searches read: for each segment, its
      obstacles in order. */
  ghost predicate PileMembersStored(piles: seq<Segment>, store: map<Id, Obstacle>)
  {
    forall k, i :: 0 <= k < |piles| && 0 <= i < |piles[k].members| ==> piles[k].members[i] in store
  }

  function GroundView(piles: seq<Segment>, store: map<Id, Obstacle>): (gs: seq<seq<Obstacle>>)
    requires PileMembersStored(piles, store)
    ensures |gs| == |piles|
    ensures forall k :: 0 <= k < |gs| ==> |gs[k]| == |piles[k].members|
    ensures forall k, i :: 0 <= k < |gs| && 0 <= i < |gs[k]| ==> gs[k][i] == store[piles[k].members[i]]
  {
    seq(|piles|, k requires 0 <= k < |piles| =>
      seq(|piles[k].members|, i requires 0 <= i < |piles[k].members| => store[piles[k].members[i]]))
  }

  /** The segments, their members and the obstacle list agree: segments are
      well formed and hold no obstacle twice, every held obstacle is a live
      grounded one, the list holds each live obstacle once, and ids are below
      `nextId`. */
  ghost predicate ObstaclesValid(piles: seq<Segment>, store: map<Id, Obstacle>, obstacles: seq<Id>, nextId: Id)
  {
    && WellFormed(piles) && Distinct(piles)
    && (forall k, i :: 0 <= k < |piles| && 0 <= i < |piles[k].members| ==>
          piles[k].members[i] in store && store[piles[k].members[i]].onGround)
    && NoDuplicates(obstacles)
    && (forall id :: id in store <==> id in obstacles)
    && (forall id :: id in store ==> id < nextId && Shaped(store[id]))
  }

  /** A new obstacle under the next id keeps the obstacles consistent. */
  lemma SpawnKeepsValid(piles: seq<Segment>, store: map<Id, Obstacle>, obstacles: seq<Id>, nextId: Id, o: Obstacle)
    requires ObstaclesValid(piles, store, obstacles, nextId) && Shaped(o)
    ensures nextId !in store
    ensures ObstaclesValid(piles, store[nextId := o], obstacles + [nextId], nextId + 1)
  {
    assert nextId !in obstacles;
    var obs := obstacles + [nextId];
    assert forall i :: 0 <= i < |obstacles| ==> obs[i] == obstacles[i];
  }

  /** Replacing an obstacle's record keeps the obstacles consistent when a
      grounded obstacle stays grounded. */
  lemma SetKeepsValid(piles: seq<Segment>, store: map<Id, Obstacle>, obstacles: seq<Id>, nextId: Id, id: Id, o: Obstacle)
    requires ObstaclesValid(piles, store, obstacles, nextId)
    requires id in store && Shaped(o) && (store[id].onGround ==> o.onGround)
    ensures ObstaclesValid(piles, store[id := o], obstacles, nextId)
  {
  }

  /** A grounded obstacle held by no segment may join any segment. */
  lemma AddKeepsValid(piles: seq<Segment>, store: map<Id, Obstacle>, obstacles: seq<Id>, nextId: Id, k: int, id: Id)
    requires ObstaclesValid(piles, store, obstacles, nextId)
    requires 0 <= k < |piles| && id in store && store[id].onGround && id !in PileIds(piles)
    ensures ObstaclesValid(AddToSegment(piles, k, id), store, obstacles, nextId)
  {
    var r := AddToSegment(piles, k, id);
    forall k', i | 0 <= k' < |r| && 0 <= i < |r[k'].members|
      ensures r[k'].members[i] in store && store[r[k'].members[i]].onGround
    {
      if k' == k && i < |piles[k].members| {
        assert r[k'].members[i] == piles[k].members[i];
      }
    }
    forall x | x in PileIds(r) ensures PileIds(r)[x] == 1 {
      if x != id {
        assert PileIds(r)[x] == PileIds(piles)[x];
      }
    }
  }

  /** Taking an obstacle out of its segment keeps the obstacles consistent,
      and no segment holds it any more. */
  lemma UnpileKeepsValid(piles: seq<Segment>, store: map<Id, Obstacle>, obstacles: seq<Id>, nextId: Id, k: int, i: int)
    requires ObstaclesValid(piles, store, obstacles, nextId)
    requires 0 <= k < |piles| && 0 <= i < |piles[k].members|
    ensures piles[k].members[i] in store && piles[k].members[i] !in PileIds(RemoveFromSegment(piles, k, i))
    ensures ObstaclesValid(RemoveFromSegment(piles, k, i), store, obstacles, nextId)
  {
    var id := piles[k].members[i];
    var r := RemoveFromSegment(piles, k, i);
    MemberInPileIds(piles, k, i);
    forall k', i' | 0 <= k' < |r| && 0 <= i' < |r[k'].members|
      ensures r[k'].members[i'] in store && store[r[k'].members[i']].onGround
    {
      if k' == k {
        if i' < i { assert r[k'].members[i'] == piles[k].members[i']; }
        else { assert r[k'].members[i'] == piles[k].members[i' + 1]; }
      }
    }
    forall x | x in PileIds(r) ensures PileIds(r)[x] == 1 {
      assert PileIds(piles)[x] == 1;
    }
  }

  /** An obstacle held by no segment may leave the list and the store. */
  lemma DiscardKeepsValid(piles: seq<Segment>, store: map<Id, Obstacle>, obstacles: seq<Id>, nextId: Id, i: int)
    requires ObstaclesValid(piles, store, obstacles, nextId)
    requires 0 <= i < |obstacles| && obstacles[i] !in PileIds(piles)
    ensures ObstaclesValid(piles, store - {obstacles[i]}, RemoveAt(obstacles, i), nextId)
  {
    var id := obstacles[i];
    forall k, j | 0 <= k < |piles| && 0 <= j < |piles[k].members|
      ensures piles[k].members[j] != id
    {
      MemberInPileIds(piles, k, j);
    }
    forall y ensures y in RemoveAt(obstacles, i) <==> y in obstacles && y != id {
      RemoveAtMembers(obstacles, i, y);
    }
  }

  /** Moving an obstacle from one segment to another keeps the obstacles consistent. */
  lemma ReassignKeepsValid(piles: seq<Segment>, store: map<Id, Obstacle>, obstacles: seq<Id>, nextId: Id, k: int, i: int, q: int)
    requires ObstaclesValid(piles, store, obstacles, nextId)
    requires 0 <= k < |piles| && 0 <= i < |piles[k].members| && 0 <= q < |piles| && q != k
    ensures ObstaclesValid(MoveToSegment(piles, k, i, q), store, obstacles, nextId)
  {
    var r := MoveToSegment(piles, k, i, q);
    forall k', i' | 0 <= k' < |r| && 0 <= i' < |r[k'].members|
      ensures r[k'].members[i'] in store && store[r[k'].members[i']].onGround
    {
      if k' == k {
        if i' < i { assert r[k'].members[i'] == piles[k].members[i']; }
        else { assert r[k'].members[i'] == piles[k].members[i' + 1]; }
      } else if k' == q {
        if i' < |piles[q].members| { assert r[k'].members[i'] == piles[q].members[i']; }
        else { assert r[k'].members[i'] == piles[k].members[i]; }
      }
    }
  }

  /** Position (k', i') comes before (k, i) in a segment-by-segment scan. */
  predicate Before(k': int, i': int, k: int, i: int)
  {
    k' < k || (k' == k && i' < i)
  }

  /** A scan applying `mark` to each segment member has treated exactly the
      members before position (k, i); everything else is as in `start`. */
  ghost predicate MarkedUpTo(piles: seq<Segment>, store: map<Id, Obstacle>, start: map<Id, Obstacle>,
                             mark: Obstacle -> Obstacle, k: int, i: int)
  {
    && (forall x :: x in store <==> x in start)
    && (forall x :: x in start && x !in PileIds(piles) ==> store[x] == start[x])
    && (forall k', i' :: 0 <= k' < |piles| && 0 <= i' < |piles[k'].members| ==>
          piles[k'].members[i'] in start &&
          store[piles[k'].members[i']] == if Before(k', i', k, i) then mark(start[piles[k'].members[i']])
                                          else start[piles[k'].members[i']])
  }

  /** Marking member i of segment k extends the marked prefix by one: no
      other position holds the same obstacle. */
  lemma MarkStep(piles: seq<Segment>, store: map<Id, Obstacle>, start: map<Id, Obstacle>,
                 mark: Obstacle -> Obstacle, k: int, i: int)
    requires Distinct(piles) && 0 <= k < |piles| && 0 <= i < |piles[k].members|
    requires MarkedUpTo(piles, store, start, mark, k, i)
    ensures var id := piles[k].members[i];
            MarkedUpTo(piles, store[id := mark(start[id])], start, mark, k, i + 1)
  {
    var id := piles[k].members[i];
    MemberInPileIds(piles, k, i);
    forall k', i' | 0 <= k' < |piles| && 0 <= i' < |piles[k'].members| && piles[k'].members[i'] == id
      ensures k' == k && i' == i
    {
      DistinctPositions(piles, k, i, k', i');
    }
  }

  /** A finished segment: its whole list comes before the start of the next. */
  lemma RowDone(piles: seq<Segment>, store: map<Id, Obstacle>, start: map<Id, Obstacle>,
                mark: Obstacle -> Obstacle, k: int)
    requires 0 <= k < |piles|
    requires MarkedUpTo(piles, store, start, mark, k, |piles[k].members|)
    ensures MarkedUpTo(piles, store, start, mark, k + 1, 0)
  {
    forall k', i' | 0 <= k' < |piles| && 0 <= i' < |piles[k'].members|
      ensures Before(k', i', k, |piles[k].members|) == Before(k', i', k + 1, 0)
    {
    }
  }

  /** A full scan has treated every segment member and nothing else. */
  lemma ScanDone(piles: seq<Segment>, store: map<Id, Obstacle>, start: map<Id, Obstacle>,
                 mark: Obstacle -> Obstacle)
    requires MarkedUpTo(piles, store, start, mark, |piles|, 0)
    ensures forall x :: x in store <==> x in start
    ensures forall x :: x in start ==> store[x] == if x in PileIds(piles) then mark(start[x]) else start[x]
  {
    forall x | x in start && x in PileIds(piles)
      ensures store[x] == mark(start[x])
    {
      var k, i := PileIdsMember(piles, x);
    }
  }

  /** Two updates of the same id: the later one wins. */
  lemma UpdateTwice(m: map<Id, Obstacle>, id: Id, a: Obstacle, b: Obstacle)
    ensures m[id := a][id := b] == m[id := b]
  {
  }

  /** The player stands on the ground within one step of the screen, the
      grace timer is in [0, 10] and power in [0, cap]. */
  ghost predicate PlayerValid(player: Player, choiceMade: Choice)
  {
    && player.y == GROUND_LEVEL as real
    && -MAX_STEP <= player.x <= (GAME_WIDTH - PLAYER_WIDTH) as real + MAX_STEP
    && 0 <= player.umbrella.openTime <= UMBRELLA_GRACE_TICKS
    && 0.0 <= player.umbrella.power <= PowerCap(choiceMade)
  }

  /** The player's step this tick: the walking speed slowed by the pile
      under the player's centre. */
  function Step(speed: real, piles: seq<Segment>, x: real): real
  {
    speed * SpeedModifier(PileDensityAt(piles, x + PLAYER_WIDTH as real / 2.0))
  }

  lemma StepBounded(speed: real, piles: seq<Segment>, x: real)
    requires WellFormed(piles) && (speed == PLAYER_SPEED || speed == PLAYER_SPEED * 1.5)
    ensures 0.0 <= Step(speed, piles, x) <= MAX_STEP
  {
    var m := SpeedModifier(PileDensityAt(piles, x + PLAYER_WIDTH as real / 2.0));
    assert 0.15 <= m <= 1.0;
    assert speed * m <= speed * 1.0;
  }

  class World {
    var player: Player
    /** Every live obstacle by id. */
    var store: map<Id, Obstacle>
    /** The obstacle list, in spawn order. */
    var obstacles: seq<Id>
    /** The id the next spawned obstacle gets. */
    var nextId: Id
    var piles: seq<Segment>
    var score: int
    var highScore: int
    var gameOver: bool
    var story: Narrative
    /** The player's sprite. */
    const womanMask: Mask

    ghost predicate Valid()
      reads this
    {
      ObstaclesValid(piles, store, obstacles, nextId) && NarrativeValid(story) && PlayerValid(player, story.choiceMade)
    }

    /** The state a new game starts from: the player centred with the
        umbrella closed and full power, no obstacles, sixteen empty segments,
        no score and the opening narrative. */
    ghost predicate Fresh()
      reads this
    {
      && player.x == START_X && player.y == GROUND_LEVEL as real
      && !player.umbrella.open && player.umbrella.power == MAX_POWER
      && obstacles == [] && store == map[]
      && WellFormed(piles) && (forall k :: 0 <= k < |piles| ==> piles[k].members == [])
      && score == 0 && !gameOver && story == Start()
    }

    twostate predicate ObstaclesUnchanged()
      reads this
    {
      store == old(store) && obstacles == old(obstacles) && nextId == old(nextId) && piles == old(piles)
    }

    twostate predicate ScoresUnchanged()
      reads this
    {
      score == old(score) && highScore == old(highScore) && gameOver == old(gameOver)
    }

    /** The segments as the collision searches read them. */
    function Grounded(): (gs: seq<seq<Obstacle>>)
      reads this
      requires Valid()
    {
      GroundView(piles, store)
    }

    /** An obstacle still in the air is held by no segment. */
    lemma AirborneNotPiled(id: Id)
      requires Valid() && id in store && !store[id].onGround
      ensures id !in PileIds(piles)
    {
      if id in PileIds(piles) {
        var k, i := PileIdsMember(piles, id);
      }
    }

    /** The game as the page loads it, with the stored high score. */
    constructor(storedHighScore: int, mask: Mask)
      ensures Valid() && Fresh()
      ensures player.umbrella.openTime == 0 && highScore == storedHighScore && womanMask == mask
    {
      player := Player(START_X, GROUND_LEVEL as real, Umbrella(false, 0, MAX_POWER));
      store := map[];
      obstacles := [];
      nextId := 0;
      var p := InitGroundPiles();
      piles := p;
      score := 0;
      highScore := storedHighScore;
      gameOver := false;
      story := Start();
      womanMask := mask;
    }

    /** Restart after a game over: everything returns to its starting value
        except the high score and the umbrella's grace timer. */
    method ResetGame()
      requires 0 <= player.umbrella.openTime <= UMBRELLA_GRACE_TICKS
      modifies this
      ensures Valid() && Fresh()
      ensures highScore == old(highScore) && player.umbrella.openTime == old(player.umbrella.openTime)
      ensures nextId == old(nextId)
    {
      var p := InitGroundPiles();
      player := Player(START_X, GROUND_LEVEL as real, player.umbrella.(open := false, power := MAX_POWER));
      obstacles := [];
      store := map[];
      piles := p;
      score := 0;
      gameOver := false;
      story := Start();
    }

    /** A key press: the space bar after a game over restarts; then, while
        the overlay is shown, A or B make the pending choice, and choosing to
        fight also raises power to 150. */
    method KeyDown(key: Key)
      requires Valid()
      modifies this
      ensures Valid()
      ensures key == Space && old(gameOver) ==>
                Fresh() && highScore == old(highScore) && player.umbrella.openTime == old(player.umbrella.openTime)
      ensures !(key == Space && old(gameOver)) ==>
                var d := Decide(old(story).showingChoice, old(story).choiceMade, old(story).secondChoiceMade, key);
                && story == Decided(old(story), d)
                && player == (if d == ChoseFight then old(player).(umbrella := old(player).umbrella.(power := PowerCap(Fight))) else old(player))
                && ObstaclesUnchanged() && ScoresUnchanged()
    {
      if key == Space && gameOver {
        ResetGame();
      }
      if story.showingChoice {
        var d := Decide(story.showingChoice, story.choiceMade, story.secondChoiceMade, key);
        story := Decided(story, d);
        if d == ChoseFight {
          player := player.(umbrella := player.umbrella.(power := PowerCap(Fight)));
        }
      }
    }

    /** The start of a tick: the message timer runs down, then a full
        knowledge meter while learning calls for the second choice. */
    method BeginTick()
      requires Valid()
      modifies this
      ensures Valid()
      ensures story == OfferSecondChoice(TickMessage(old(story)))
      ensures player == old(player) && ObstaclesUnchanged() && ScoresUnchanged()
    {
      story := OfferSecondChoice(TickMessage(story));
    }

    /** The player's part of a tick: walk by the arrow keys at the speed the
        pile underfoot allows, count stillness when meditating (seeing the
        umbrella as it was before this tick), then work the umbrella. */
    method PlayerPhase(keys: Keys)
      requires Valid()
      modifies this
      ensures Valid()
      ensures var move := MovePlayer(old(player).x, Step(old(story).playerSpeed, old(piles), old(player).x), keys);
              && player == old(player).(x := move.x, umbrella := UmbrellaStep(old(player).umbrella, keys.up))
              && story == MeditationTick(old(story), move.moved, old(player).umbrella.open)
      ensures ObstaclesUnchanged() && ScoresUnchanged()
    {
      var step := Step(story.playerSpeed, piles, player.x);
      StepBounded(story.playerSpeed, piles, player.x);
      var move := MovePlayer(player.x, step, keys);
      PlayerStaysNearScreen(player.x, step, keys, MAX_STEP);
      story := MeditationTick(story, move.moved, player.umbrella.open);
      UmbrellaStepBounded(player.umbrella, keys.up, story.choiceMade);
      player := player.(x := move.x, umbrella := UmbrellaStep(player.umbrella, keys.up));
    }

    /** Game over: the high score becomes the score if the score beats it. */
    method EndGame()
      requires Valid()
      modifies this
      ensures Valid()
      ensures gameOver && highScore == HighScoreAfterGameOver(old(score), old(highScore)) && score == old(score)
      ensures player == old(player) && story == old(story) && ObstaclesUnchanged()
    {
      gameOver := true;
      highScore := HighScoreAfterGameOver(score, highScore);
    }

    /** The end of a tick: a segment holding ten obstacles or more ends the game. */
    method CheckPileHazard()
      requires Valid()
      modifies this
      ensures Valid()
      ensures var hazard := exists k :: 0 <= k < |piles| && piles[k].count >= 10;
              && gameOver == (old(gameOver) || hazard)
              && highScore == (if hazard then HighScoreAfterGameOver(old(score), old(highScore)) else old(highScore))
      ensures score == old(score) && player == old(player) && story == old(story) && ObstaclesUnchanged()
    {
      var hazard := PileHazard(piles);
      if hazard {
        EndGame();
      }
    }

    /** A new obstacle joins the end of the obstacle list under a fresh id. */
    method Spawn(o: Obstacle)
      requires Valid() && Spawnable(o)
      modifies this
      ensures Valid()
      ensures store == old(store)[old(nextId) := o] && obstacles == old(obstacles) + [old(nextId)]
      ensures nextId == old(nextId) + 1 && old(nextId) !in old(store)
      ensures piles == old(piles) && player == old(player) && story == old(story) && ScoresUnchanged()
    {
      SpawnKeepsValid(piles, store, obstacles, nextId, o);
      store := store[nextId := o];
      obstacles := obstacles + [nextId];
      nextId := nextId + 1;
    }

    /** Replaces the record of a live obstacle; a grounded one stays grounded. */
    method SetObstacle(id: Id, o: Obstacle)
      requires Valid() && id in store && Shaped(o) && (store[id].onGround ==> o.onGround)
      modifies this
      ensures Valid()
      ensures store == old(store)[id := o]
      ensures obstacles == old(obstacles) && nextId == old(nextId) && piles == old(piles)
      ensures player == old(player) && story == old(story) && ScoresUnchanged()
    {
      SetKeepsValid(piles, store, obstacles, nextId, id, o);
      store := store[id := o];
    }

    /** A grounded obstacle joins the segment under its centre, if the
        centre is over the ground; when `rises` the countdown winds up. */
    method AddToPile(id: Id, rises: bool)
      requires Valid() && id in store && store[id].onGround && id !in PileIds(piles)
      modifies this
      ensures Valid()
      ensures store == old(store) && obstacles == old(obstacles) && nextId == old(nextId)
      ensures var k := SegmentIndexFor(CentreX(store[id]));
              if 0 <= k < |old(piles)| then
                piles == AddToSegment(old(piles), k, id) && story == (if rises then AfterLanding(old(story)) else old(story))
              else
                piles == old(piles) && story == old(story)
      ensures player == old(player) && ScoresUnchanged()
    {
      var k := SegmentIndexFor(CentreX(store[id]));
      if 0 <= k < |piles| {
        AddKeepsValid(piles, store, obstacles, nextId, k, id);
        piles := AddToSegment(piles, k, id);
        if rises {
          story := AfterLanding(story);
        }
      }
    }

    /** The umbrella struck an obstacle: ten points, and the countdown runs down. */
    method ScoreDeflection()
      requires Valid()
      modifies this
      ensures Valid()
      ensures score == old(score) + DEFLECT_SCORE && story == AfterDeflection(old(story))
      ensures highScore == old(highScore) && gameOver == old(gameOver)
      ensures player == old(player) && ObstaclesUnchanged()
    {
      score := score + DEFLECT_SCORE;
      story := AfterDeflection(story);
    }

    /** The player learned from touching an obstacle. */
    method LearnFromTouch(message: int)
      requires Valid() && 0 <= message < MESSAGE_COUNT
      modifies this
      ensures Valid()
      ensures story == AfterTouch(old(story), message)
      ensures player == old(player) && ObstaclesUnchanged() && ScoresUnchanged()
    {
      story := AfterTouch(story, message);
    }

    /** The open umbrella strikes an airborne, undeflected obstacle whose box
        overlaps the umbrella's: it is deflected, the score rises by ten and
        the countdown runs down. */
    method Strike(id: Id)
      requires Valid() && id in store
      modifies this
      ensures Valid()
      ensures var o := old(store[id]);
              if old(player.umbrella.open) && !o.deflected && !o.onGround &&
                 CheckCollision(BoxOf(o), UmbrellaBox(old(player.x), old(player.y), old(story.choiceMade))) then
                && store == old(store)[id := Deflect(o, old(player.x))]
                && score == old(score) + DEFLECT_SCORE && story == AfterDeflection(old(story))
              else
                store == old(store) && score == old(score) && story == old(story)
      ensures id in store && store == old(store)[id := store[id]] && score >= old(score)
      ensures obstacles == old(obstacles) && nextId == old(nextId) && piles == old(piles)
      ensures player == old(player) && highScore == old(highScore) && gameOver == old(gameOver)
    {
      var o := store[id];
      if player.umbrella.open && !o.deflected && !o.onGround &&
         CheckCollision(BoxOf(o), UmbrellaBox(player.x, player.y, story.choiceMade)) {
        SetObstacle(id, Deflect(o, player.x));
        ScoreDeflection();
      }
    }

    /** An obstacle at list position i, held by no segment, leaves the game. */
    method Discard(i: int)
      requires Valid() && 0 <= i < |obstacles| && obstacles[i] !in PileIds(piles)
      modifies this
      ensures Valid()
      ensures obstacles == RemoveAt(old(obstacles), i) && store == old(store) - {old(obstacles)[i]}
      ensures nextId == old(nextId) && piles == old(piles)
      ensures player == old(player) && story == old(story) && ScoresUnchanged()
    {
      DiscardKeepsValid(piles, store, obstacles, nextId, i);
      store := store - {obstacles[i]};
      obstacles := RemoveAt(obstacles, i);
    }

    /** The end of an obstacle's turn: the obstacle at list position i leaves
        the list and the game exactly when it is airborne and off screen. */
    method RemoveIfGone(i: int)
      requires Valid() && 0 <= i < |obstacles|
      modifies this
      ensures Valid()
      ensures var id := old(obstacles[i]);
              if !old(store[id]).onGround && OffScreen(old(store[id])) then
                obstacles == RemoveAt(old(obstacles), i) && store == old(store) - {id}
              else
                obstacles == old(obstacles) && store == old(store)
      ensures old(obstacles[i]) !in store <==> !old(store[obstacles[i]]).onGround && OffScreen(old(store[obstacles[i]]))
      ensures nextId == old(nextId) && piles == old(piles)
      ensures player == old(player) && story == old(story) && ScoresUnchanged()
    {
      var id := obstacles[i];
      if !store[id].onGround && OffScreen(store[id]) {
        AirborneNotPiled(id);
        Discard(i);
      }
    }

    /** Obstacle i of segment k leaves the segment; it stays in the game. */
    method Unpile(k: int, i: int)
      requires Valid() && 0 <= k < |piles| && 0 <= i < |piles[k].members|
      modifies this
      ensures Valid()
      ensures piles == RemoveFromSegment(old(piles), k, i)
      ensures old(piles)[k].members[i] in store && old(piles)[k].members[i] !in PileIds(piles)
      ensures store == old(store) && obstacles == old(obstacles) && nextId == old(nextId)
      ensures player == old(player) && story == old(story) && ScoresUnchanged()
    {
      UnpileKeepsValid(piles, store, obstacles, nextId, k, i);
      piles := RemoveFromSegment(piles, k, i);
    }

    /** Obstacle i of segment k was pushed off screen: it leaves the segment
        and the obstacle list. */
    method DropFromPile(k: int, i: int)
      requires Valid() && 0 <= k < |piles| && 0 <= i < |piles[k].members|
      modifies this
      ensures Valid()
      ensures var id := old(piles)[k].members[i];
              && piles == RemoveFromSegment(old(piles), k, i)
              && obstacles == RemoveAt(old(obstacles), IndexOf(old(obstacles), id))
              && store == old(store) - {id}
      ensures nextId == old(nextId)
      ensures player == old(player) && story == old(story) && ScoresUnchanged()
    {
      var id := piles[k].members[i];
      Unpile(k, i);
      var j := IndexOf(obstacles, id);
      Discard(j);
    }

    /** Obstacle i of segment k moves to segment q. */
    method Reassign(k: int, i: int, q: int)
      requires Valid() && 0 <= k < |piles| && 0 <= i < |piles[k].members| && 0 <= q < |piles| && q != k
      modifies this
      ensures Valid()
      ensures piles == MoveToSegment(old(piles), k, i, q)
      ensures store == old(store) && obstacles == old(obstacles) && nextId == old(nextId)
      ensures player == old(player) && story == old(story) && ScoresUnchanged()
    {
      ReassignKeepsValid(piles, store, obstacles, nextId, k, i, q);
      piles := MoveToSegment(piles, k, i, q);
    }

    /** The push step for member i of segment k: an obstacle with a push speed
        slides; pushed off screen it leaves the segment and the game, otherwise
        it moves to the segment now under its centre, if that is another
        segment over the ground. */
    method Push(k: int, i: int)
      requires Valid() && 0 <= k < |piles| && 0 <= i < |piles[k].members|
      modifies this
      ensures Valid()
      ensures var id := old(piles[k].members[i]);
              var g := old(store[id]);
              if g.pushVelocityX == 0.0 then
                store == old(store) && piles == old(piles) && obstacles == old(obstacles)
              else if PushedOff(Slid(g)) then
                && piles == RemoveFromSegment(old(piles), k, i)
                && obstacles == RemoveAt(old(obstacles), IndexOf(old(obstacles), id))
                && store == old(store) - {id}
              else
                && store == old(store)[id := Slid(g)] && obstacles == old(obstacles)
                && var q := SegmentIndexFor(CentreX(Slid(g)));
                   piles == if q != k && 0 <= q < |old(piles)| then MoveToSegment(old(piles), k, i, q) else old(piles)
      ensures |piles| == |old(piles)| && i <= |piles[k].members|
      ensures |old(obstacles)| - |obstacles| == Total(old(piles)) - Total(piles)
      ensures forall x :: x in store ==>
                x in old(store) && store[x].onGround == old(store)[x].onGround && store[x].deflected == old(store)[x].deflected
      ensures old(piles)[k].members[i] in store ==> old(piles)[k].members[i] in PileIds(piles)
      ensures forall x :: x in old(store) && old(store)[x].pushVelocityX == 0.0 ==> x in store && store[x] == old(store)[x]
      ensures nextId == old(nextId) && player == old(player) && story == old(story)
      ensures score == old(score) && highScore == old(highScore) && gameOver == old(gameOver)
    {
      var id := piles[k].members[i];
      MemberInPileIds(piles, k, i);
      if store[id].pushVelocityX == 0.0 {
        return;
      }
      SlideOne(k, i);
    }

    /** The push step for an obstacle with a push speed. */
    method SlideOne(k: int, i: int)
      requires Valid() && 0 <= k < |piles| && 0 <= i < |piles[k].members|
      requires store[piles[k].members[i]].pushVelocityX != 0.0
      modifies this
      ensures Valid()
      ensures var id := old(piles[k].members[i]);
              var g := old(store[id]);
              if PushedOff(Slid(g)) then
                && piles == RemoveFromSegment(old(piles), k, i)
                && obstacles == RemoveAt(old(obstacles), IndexOf(old(obstacles), id))
                && store == old(store) - {id}
              else
                && store == old(store)[id := Slid(g)] && obstacles == old(obstacles) && id in PileIds(piles)
                && var q := SegmentIndexFor(CentreX(Slid(g)));
                   piles == if q != k && 0 <= q < |old(piles)| then MoveToSegment(old(piles), k, i, q) else old(piles)
      ensures |piles| == |old(piles)| && i <= |piles[k].members|
      ensures |old(obstacles)| - |obstacles| == Total(old(piles)) - Total(piles)
      ensures forall x :: x in store ==>
                x in old(store) && store[x].onGround == old(store)[x].onGround && store[x].deflected == old(store)[x].deflected
      ensures forall x :: x in old(store) && x != old(piles[k].members[i]) ==> x in store && store[x] == old(store)[x]
      ensures nextId == old(nextId) && player == old(player) && story == old(story)
      ensures score == old(score) && highScore == old(highScore) && gameOver == old(gameOver)
    {
      var id := piles[k].members[i];
      var g := store[id];
      var slid := Slid(g);
      SlideKeepsShape(g);
      if PushedOff(slid) {
        DropFromPile(k, i);
        return;
      }
      SlideWithin(k, i, slid);
    }

    /** Member i of segment k slid to `s` and stays on screen: it moves to
        the segment now under its centre, if that is another segment over the
        ground. */
    method SlideWithin(k: int, i: int, s: Obstacle)
      requires Valid() && 0 <= k < |piles| && 0 <= i < |piles[k].members|
      requires Shaped(s) && s.onGround && s.deflected == store[piles[k].members[i]].deflected
      modifies this
      ensures Valid()
      ensures var id := old(piles[k].members[i]);
              && store == old(store)[id := s] && id in PileIds(piles)
              && var q := SegmentIndexFor(CentreX(s));
                 piles == if q != k && 0 <= q < |old(piles)| then MoveToSegment(old(piles), k, i, q) else old(piles)
      ensures |piles| == |old(piles)| && Total(piles) == Total(old(piles))
      ensures obstacles == old(obstacles) && nextId == old(nextId)
      ensures player == old(player) && story == old(story) && ScoresUnchanged()
    {
      var id := piles[k].members[i];
      MemberInPileIds(piles, k, i);
      SetObstacle(id, s);
      var q := SegmentIndexFor(CentreX(s));
      if q != k && 0 <= q < |piles| {
        Reassign(k, i, q);
      }
    }
  }
}
