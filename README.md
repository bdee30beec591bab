# This Way of Life — a verified model of the game's simulation core

The game is a single screen, 512 × 384. Objects fall from the top and the
player walks along the ground at y = 350.

The player has an umbrella. Open, it strikes falling objects away and earns 10
points for each strike. It also drains the umbrella's power.

Anything that reaches the ground piles up in one of sixteen 32-pixel
segments. Piles slow the player down. When any segment holds ten objects, the
game ends.

A countdown of deflections opens a choice between *fight* and *learn*. Learning
fills a knowledge meter by touching objects, which then opens a second
choice between *faster* and *meditate*.

The code exists in two revisions, and both are modelled:

- `src/game.js`, version 1.3. Collisions with the player and landing on piles
  are pixel-accurate. The umbrella pushes a grounded object only on actual
  contact.
- `game.js`, the earlier revision. All collisions use bounding boxes. Every
  grounded object is pushed while the umbrella is open. Grounded objects
  "settle" onto the highest object found under them.

## Layout

| file | module | contents |
|---|---|---|
| `constants.dfy` | `Constants` | the game's constants |
| `lists.dfy` | `Lists` | `indexOf` and `splice` on sequences |
| `geometry.dfy` | `Geometry` | boxes, sprite masks, `checkCollision`, `isPixelSolid`, `checkPixelCollision`, the solid-row scans |
| `piles.dfy` | `Piles` | the ground segments: `initGroundPiles`, density, add / remove / move, the pile hazard |
| `rules.dfy` | `Rules` | the pure game rules: speed modifier, movement, umbrella power, stillness, countdown, knowledge, high score, choice decisions |
| `obstacles.dfy` | `Obstacles` | the obstacle record and its one-tick transformations (fall, fly, land, deflect, nudge, slide) |
| `story.dfy` | `Story` | the narrative fields (countdown, choices, knowledge, message, speed, stillness) and their updates |
| `game.dfy` | `Game` | the `World` class holding the whole state, and the operations both revisions share |
| `revision13.dfy` | `Revision13` | `findRestingY` and `update()` of `src/game.js` |
| `legacy.dfy` | `Legacy` | `checkGroundObstacleCollision`, `getHighestObstacleAt` and `update()` of `game.js` |

### How the state is modelled

In JavaScript, one obstacle object can sit in the `obstacles` array and in a
segment's `obstacles` list at the same time. The model gives every obstacle
an id:

- `World.store` maps each live id to its record.
- `World.obstacles` is the obstacle list in spawn order.
- Each segment holds a list of ids (`members`) and a `count`.

`update()` edits these in place, so its phases are methods that change a
`World`. An obstacle's own fields change through `SetObstacle`. Segments and
lists change only through `AddToPile`, `Unpile`, `Discard`, `DropFromPile` and
`Reassign`.

Every operation keeps `World.Valid()`, which says:

- every segment's `count` is the length of its list;
- the segments are the sixteen 32-pixel spans at x = 32·k;
- an id appears at most once across all segments and at most once in the list;
- every id held by a segment is live and grounded;
- the live ids are exactly the ids in the list;
- every obstacle has its drawn size;
- the narrative fields and the player's position and power stay in range.

`Revision13` adds one more invariant, `NoDeflectedGrounded`: no grounded
obstacle is a deflected one.

Numbers are modelled as follows:

- positions, velocities, power and speed are exact reals;
- sizes, counts, the countdown and knowledge are integers;
- sprite masks are `seq<seq<bool>>`. A mask is read the way the code reads it:
  the row length is taken from row 0, and a cell outside its row is not solid.

The two revisions share much of their code unchanged:

| code | `src/game.js` | `game.js` |
|---|---|---|
| `initGroundPiles` | 71-83 | 68-80 |
| `checkCollision` | 386-391 | 333-338 |
| `getPileDensityAtPosition` | 479-485 | 372-378 |
| the start of `update()` | 488-556 | 381-449 |
| the off-screen removal | 668-672 | 569-573 |
| the pile hazard | 736-753 | 663-680 |
| `resetGame` | 953-973 | 880-900 |
| the key handler | 976-1020 | 903-947 |

Each of these is modelled once, in `Game`, `Piles`, `Rules` and `Story`. The
table below cites only the `src/game.js` lines.

### Quirks of the code the model keeps

- **Landing on a pile in v1.3 leaves a gap.** `findRestingY` computes the y
  of the falling obstacle's *top* edge at which its lowest solid pixel meets
  the pile. `update()` then uses that value as the obstacle's *bottom* edge.
  So an obstacle landing on a pile stops a full obstacle height above the
  contact. `Revision13.LandingOnPileLeavesGap` states this.
- **Grounded obstacles climb in the earlier revision.** `getHighestObstacleAt`
  also finds the obstacle being settled. So the support is at most the
  obstacle's own top, and every grounded obstacle in a segment that is not
  being pushed moves up by at least its own height each tick.
  `Legacy.SelfSupportRise` and `Legacy.Settle` state this.
- **The earlier push test is always true.** It compares the player with a box
  built around the player itself, so while the umbrella is open every idle
  grounded obstacle in a segment is pushed, at 2 pixels per tick.
  `Legacy.MarksEveryIdleObstacle` states this.
- **Deflected obstacles can land in the earlier revision.** An obstacle that
  reaches ground level lands whether or not it was deflected.
  `Legacy.GroundLanding` states this.
- **An obstacle can be grounded in no segment.** If its centre lies outside
  [0, 512) when it lands, it is grounded but added to no segment.
  `Game.World.AddToPile` states this.
- **Recharge caps power at 100, even in fight mode.** Fight mode's 150 falls
  back to 100 on the first recharge tick (`Rules.FightPowerFallsBack`).
- **`resetGame` leaves the umbrella's grace timer unchanged**
  (`Game.World.ResetGame`).
- **The high score can trail the score after a game over.** Once the game is
  over, a later obstacle in the same tick can still be deflected and add to
  the score. So only `highScore >= old(highScore)` is guaranteed.
- **Only part of the player's sprite is read.** The player's sprite is compared
  against a 16 × 24 box at two screen pixels per cell, so only the top-left
  8 × 12 cells of the woman sprite are ever read
  (`Game.PlayerHitReadsTopLeft`).

## Model

| member | source | states |
|---|---|---|
| Lists.IndexOf | src/game.js:711 | the index of the first occurrence of `x`, and -1 exactly when `x` is absent |
| Lists.RemoveAt | src/game.js:709 | `splice(i, 1)`: one shorter, the elements before `i` unchanged, the rest shifted down one, the multiset minus `s[i]` |
| Lists.RemoveAtMembers | src/game.js:668-672 | removing one position from a list without duplicates leaves a list without duplicates that holds every other element |
| Geometry.IsPixelSolid | src/game.js:336-344 | a solid pixel lies inside the sprite grid, and is solid exactly when its mask cell at (⌊py/scale⌋, ⌊px/scale⌋) is set |
| Geometry.CollisionSymmetric | src/game.js:386-391 | box collision does not depend on argument order |
| Geometry.TouchingEdgesDoNotCollide | src/game.js:386-391 | boxes that only share an edge do not collide |
| Geometry.CollisionIsNonEmptyOverlap | src/game.js:386-391 | boxes of positive size collide exactly when their intersection has positive width and height |
| Geometry.CheckPixelCollision | src/game.js:347-383 | true exactly when the boxes strictly overlap and some sample point, every 2 pixels from the overlap's top-left, is solid in both sprites; so a pixel hit implies a box hit |
| Geometry.ScanRow | src/game.js:396-400 | the column scan finds a solid cell exactly when the row has one |
| Geometry.GetLowestSolidPixelY | src/game.js:394-403 | 0 exactly when no row is solid; otherwise the bottom edge `(row+1)·scale` of the lowest solid row |
| Geometry.GetHighestSolidPixelY | src/game.js:406-415 | 0 when no row is solid; otherwise the top edge `row·scale` of the highest solid row |
| Piles.CeilDiv | src/game.js:73 | the ceiling of a/b: the least q with q·b ≥ a |
| Piles.SegmentCount | src/game.js:73 | ceil(512/32) = 16 segments, the fewest that cover the play width |
| Piles.InitGroundPiles | src/game.js:71-83 | sixteen empty segments at x = 32·k, 32 wide, each count equal to its list length, holding no obstacle |
| Piles.SegmentsTile | src/game.js:479-485 | the segments tile [0, 512): each x there lies in exactly one segment, the one at ⌊x/32⌋ |
| Piles.PileDensityAt | src/game.js:479-485 | the count of segment ⌊x/32⌋ when that index is in range, else 0 |
| Piles.DensityBySpan | src/game.js:479-485 | the density at x is the count of the segment whose span holds x, and 0 off the ground |
| Piles.TotalIsSize | src/game.js:597-600 | when every count equals its list length, the total count equals the number of ids held |
| Piles.MemberInPileIds | src/game.js:425-426 | an id in a segment's list is among the ids the segments hold |
| Piles.PileIdsMember | src/game.js:425-426 | an id the segments hold is at some position of some segment's list |
| Piles.DistinctPositions | src/game.js:676-677 | when no id is held twice, two positions holding the same id are the same position |
| Piles.AddToSegment | src/game.js:597-600 | landing: `push` onto one segment and `count++`; other segments untouched; layout and count = length kept; one more id held; total + 1 |
| Piles.RemoveFromSegment | src/game.js:708-711 | push-off: `splice` from one segment and `count--`; layout and count = length kept; that id no longer held; total - 1 |
| Piles.MoveToSegment | src/game.js:719-726 | reassignment: removed from one segment and appended to another; same ids held; total unchanged |
| Piles.HazardThreshold | src/game.js:740-742 | a non-empty pile's estimated top 350 - 32·count reaches y = 50 exactly when count ≥ 10 |
| Piles.PileHazard | src/game.js:736-753 | the hazard scan finds a segment exactly when some segment's count is ≥ 10 |
| Rules.SpeedModifier | src/game.js:505-507 | max(0.15, 1 - 0.2·density): 1 on bare ground, in [0.15, 1], and 0.15 from five obstacles on |
| Rules.SpeedModifierMonotone | src/game.js:507 | a denser pile never speeds the player up |
| Rules.MovePlayer | src/game.js:512-520 | left moves left only when x > 0; right moves right only when x < 496 (checked after the left move); `moved` exactly when either did; with both arrows held, the right move starts from where the left move ended |
| Rules.PlayerStaysNearScreen | src/game.js:512-520 | a player within one step of [0, 496] stays within one step of it |
| Rules.UmbrellaStep | src/game.js:536-556 | holding up with power opens the umbrella, drains 0.5 (not below 0) and restarts the 10-tick grace timer, and it stays open exactly while power is left; otherwise the grace timer runs down with the umbrella as it was, then the umbrella closes and recharges by 0.1 up to 100; power ≤ 0 closes it |
| Rules.UmbrellaStepBounded | src/game.js:536-556 | power stays in [0, cap] (150 in fight mode, else 100) and the grace timer in [0, 10] |
| Rules.FightPowerFallsBack | src/game.js:547-550 | a closed umbrella at fight mode's 150 recharges to 100 |
| Rules.StillnessStep | src/game.js:522-534 | moving or an open umbrella resets the timer; otherwise it counts up, and at 60 knowledge gains 1 (up to 100) and the timer resets |
| Rules.StillTicksCount | src/game.js:522-534 | fewer than 60 still ticks only count up |
| Rules.StillTicksShift | src/game.js:522-534 | n+1 still ticks are n still ticks followed by one more |
| Rules.SixtyStillTicks | src/game.js:522-534 | sixty still ticks from 0 give exactly one point of knowledge and a timer back at 0 |
| Rules.CountdownAfterLanding | src/game.js:602-606 | a landing raises a positive countdown by one, capped at 10, and leaves 0 alone; [0, 10] is kept |
| Rules.CountdownAfterDeflection | src/game.js:636-641 | a deflection lowers a positive countdown by one; the first choice falls due exactly when it goes from 1 to 0 with no choice made |
| Rules.ChoiceDueOnce | src/game.js:636-641 | once the choice has fallen due the countdown is 0, and a further deflection does not make it due again |
| Rules.GainKnowledge | src/game.js:649 | knowledge grows by exactly the gain rate, or to 100 when that would pass 100 |
| Rules.HighScoreAfterGameOver | src/game.js:660-665 | the high score becomes the score only if the score beats it, so it never decreases |
| Rules.Decide | src/game.js:984-1017 | A or B choose fight or learn only while no choice is made; choose faster or meditate only after learning with no second choice; nothing outside the overlay |
| Rules.OverlayAcceptsChoiceKeys | src/game.js:984-1017 | while a choice is pending, A and B always decide it |
| Rules.DecisionAdvances | src/game.js:984-1017 | a decision moves the story exactly one stage forward and the progression stays legal; no key ever moves it back |
| Obstacles.PushTrail | src/game.js:572-578 | the meteor trail gets the centre at its front and keeps at most eight points, dropping the oldest |
| Obstacles.Fall | src/game.js:569-582 | a falling obstacle moves by its velocity, and a meteor records its centre first |
| Obstacles.Fly | src/game.js:610-615 | a deflected obstacle gains 0.3 of downward speed, moves by the new velocity and loses its trail |
| Obstacles.Land | src/game.js:588-594 | a landed obstacle is grounded with its bottom at the rest value, still, and without a trail |
| Obstacles.UmbrellaBox | src/game.js:617-627 | the umbrella's box is 32 high above the player's head, 64 wide in fight mode and 48 otherwise, centred on the player's right edge |
| Obstacles.Deflect | src/game.js:629-631 | a struck obstacle is deflected upward at speed 8, and sideways away from the player at a tenth of the distance |
| Obstacles.NudgeAway | src/game.js:652-654 | a touched obstacle is deflected upward at speed 2, and sideways away from the player at a twentieth of the distance |
| Obstacles.SpawnedOnScreen | src/game.js:279-309 | a freshly created obstacle is not yet off screen |
| Obstacles.Friction | src/game.js:700-705 | the push speed becomes 95% of itself, or 0 (and the push ends) once below 0.1 in size |
| Obstacles.FrictionSlows | src/game.js:700-705 | friction never speeds an obstacle up or turns it round |
| Obstacles.PushDirection | src/game.js:681-682 | +1 exactly when the player's centre is left of the obstacle's, else -1 |
| Obstacles.SlideKeepsShape | src/game.js:697-705 | a slide moves the obstacle only sideways, keeps it grounded, and slows it |
| Story.Start | src/game.js:45-55 | the opening narrative: countdown 10, no choice, empty meters, speed 3, gain rate 10 |
| Story.TickMessage | src/game.js:492-498 | the message timer runs down one tick, and the message disappears when the timer reaches 0 |
| Story.MessageLasts | src/game.js:492-498 | a message shown for t ticks is on screen for exactly t ticks |
| Story.OfferSecondChoice | src/game.js:500-503 | a full knowledge meter while learning, with no second choice yet, opens the overlay |
| Story.MeditationTick | src/game.js:522-534 | stillness counts only after choosing to meditate |
| Story.AfterDeflection | src/game.js:636-641 | the countdown runs down, and the first choice is offered when it reaches 0 before any choice |
| Story.AfterLanding | src/game.js:602-606 | the countdown winds up, capped at 10 |
| Story.AfterTouch | src/game.js:648-651 | knowledge grows by the gain rate (up to 100) and the chosen message shows for 120 ticks |
| Story.Decided | src/game.js:984-1017 | fight and learn restart the countdown at 10; faster empties the meter, sets speed 4.5 and gain rate 15; meditate empties the meter; the other decisions leave speed and gain rate alone; every decision closes the overlay and advances the story one stage |
| Game.PlayerHitReadsTopLeft | src/game.js:363-376 | a sample that hits the player reads a cell in the top-left 8 × 12 of the player's mask |
| Game.GroundView | src/game.js:425-426 | the grounded obstacles segment by segment, in list order |
| Game.SpawnKeepsValid | src/game.js:731-734 | appending a new obstacle under a fresh id keeps the bookkeeping invariant |
| Game.SetKeepsValid | src/game.js:580-594 | changing a live obstacle's record, keeping a grounded one grounded, keeps the invariant |
| Game.AddKeepsValid | src/game.js:597-600 | adding a grounded obstacle held by no segment to a segment keeps the invariant |
| Game.UnpileKeepsValid | src/game.js:708-711 | removing a position from a segment keeps the invariant, and that id is then held by no segment |
| Game.DiscardKeepsValid | src/game.js:668-672 | removing from the list an obstacle that no segment holds keeps the invariant |
| Game.ReassignKeepsValid | src/game.js:719-726 | moving an obstacle between segments keeps the invariant |
| Game.MarkStep | src/game.js:676-687 | marking one segment member extends the marked part of the scan by exactly that obstacle |
| Game.RowDone | src/game.js:676-687 | a finished segment hands the scan on to the next |
| Game.ScanDone | src/game.js:676-687 | after the full scan, exactly the obstacles the segments hold are marked |
| Game.StepBounded | src/game.js:505-520 | a step is never negative and never exceeds 4.5 |
| Game.World.AirborneNotPiled | src/game.js:563-566 | an obstacle still in the air is held by no segment |
| Game.World.constructor | src/game.js:27-55 | the page-load state: player centred at x = 248 on the ground, umbrella closed with power 100, no obstacles, sixteen empty segments, score 0, the stored high score |
| Game.World.ResetGame | src/game.js:953-973 | everything returns to its starting value except the high score and the umbrella's grace timer |
| Game.World.KeyDown | src/game.js:976-1020 | space after a game over resets; then, on the overlay, A and B decide the pending choice, and fight sets power to 150; nothing else changes |
| Game.World.BeginTick | src/game.js:492-503 | the message timer, then the second-choice offer |
| Game.World.PlayerPhase | src/game.js:505-556 | the player walks at speed × modifier for the pile underfoot, stillness counts against the umbrella state before this tick, then the umbrella and power update |
| Game.World.EndGame | src/game.js:660-665 | game over, with the high score raised to the score if beaten |
| Game.World.CheckPileHazard | src/game.js:736-753 | the game ends exactly when some segment holds ten or more, with the high score update |
| Game.World.Spawn | src/game.js:731-734 | a new obstacle joins the end of the list under a fresh id |
| Game.World.SetObstacle | src/game.js:580-594 | one obstacle's record is replaced and nothing else changes |
| Game.World.AddToPile | src/game.js:596-607 | a grounded obstacle joins the segment under its centre when that index is in [0, 16), and the countdown winds up if asked; outside the range it stays grounded in no segment |
| Game.World.ScoreDeflection | src/game.js:632-641 | ten points, and the countdown runs down |
| Game.World.LearnFromTouch | src/game.js:648-651 | knowledge and message update on a learning touch |
| Game.World.Strike | src/game.js:617-643 | an open umbrella whose box overlaps an airborne, undeflected obstacle deflects it, scores ten and runs the countdown down; otherwise nothing changes |
| Game.World.Discard | src/game.js:668-672 | an obstacle held by no segment leaves the list and the game |
| Game.World.RemoveIfGone | src/game.js:668-672 | the obstacle at list position i leaves the list and the game exactly when it is airborne and off screen; otherwise nothing changes |
| Game.World.Unpile | src/game.js:708-711 | a position leaves its segment; the obstacle stays live |
| Game.World.DropFromPile | src/game.js:707-716 | an obstacle pushed off screen leaves its segment and, found by `indexOf`, the list and the game |
| Game.World.Reassign | src/game.js:719-726 | an obstacle moves from one segment to another |
| Game.World.Push | src/game.js:696-727 | an obstacle with a push speed slides; pushed past either edge it leaves its segment and the game; otherwise it moves to the segment under its centre if that is another in-range segment; the removals from the list match the drop in the total count; an obstacle without a push speed is untouched |
| Game.World.SlideOne | src/game.js:697-727 | the push step for an obstacle with a push speed: dropped exactly when the slid obstacle is off screen |
| Game.World.SlideWithin | src/game.js:718-727 | a slid obstacle still on screen is reassigned to the segment under its centre when that is another in-range segment |
| Revision13.BottomSolid | src/game.js:443-449 | the lowest solid pixel of a column, or -1 when the column has none |
| Revision13.TopSolid | src/game.js:454-460 | the highest solid pixel of a column, or -1 when the column has none |
| Revision13.ScanDown | src/game.js:443-449 | the bottom-up scan finds the lowest solid pixel |
| Revision13.ScanUp | src/game.js:454-460 | the top-down scan finds the highest solid pixel |
| Revision13.RestSeparates | src/game.js:464-466 | at a column's rest value, every solid pixel of the faller lies above every solid pixel of the grounded obstacle, and the two extremes touch |
| Revision13.LandingOnPileLeavesGap | src/game.js:585-590 | landing at a column's rest value leaves the faller a full obstacle height above the contact |
| Revision13.RestingYUnique | src/game.js:419-476 | the resting position is unique |
| Revision13.NoOverlapRestsOnGround | src/game.js:422-431 | with no grounded obstacle overlapping horizontally, the resting position is ground level |
| Revision13.ColumnsMin | src/game.js:435-471 | the least of the current value and every column's rest value for one grounded obstacle |
| Revision13.FindRestingY | src/game.js:419-476 | null exactly for a deflected obstacle; otherwise the least of 350 and every shared column's rest value, so at most 350 |
| Revision13.LandAt | src/game.js:588-607 | a landing obstacle rests at the value found and joins the segment under its centre, winding the countdown up |
| Revision13.FallStep | src/game.js:569-608 | the faller moves; it lands exactly when its bottom reaches the resting position, with the segment and countdown updates; otherwise it only moves |
| Revision13.MoveAirborne | src/game.js:568-615 | a deflected obstacle flies; any other falls, and lands at the resting position `findRestingY` gives once its bottom reaches it, joining the segment under its centre and winding the countdown up; no grounded obstacle is deflected |
| Revision13.LearnCheck | src/game.js:645-655 | while learning and not meditating, a pixel touch by an airborne, undeflected obstacle teaches and nudges it away; otherwise nothing changes |
| Revision13.ContactCheck | src/game.js:657-666 | outside learning, or while meditating, a pixel touch by an airborne, undeflected obstacle ends the game |
| Revision13.MoveAndStrike | src/game.js:568-643 | movement, then the umbrella check; only this obstacle's record changes, the score never drops, and no grounded obstacle is deflected |
| Revision13.TouchPlayer | src/game.js:645-666 | the learning and contact checks; only this obstacle's record changes, and the high score never drops |
| Revision13.StepAirborne | src/game.js:568-666 | an airborne obstacle's whole turn changes only its own record, and keeps the invariants |
| Revision13.StepObstacle | src/game.js:559-672 | a grounded obstacle is skipped and nothing changes; otherwise only that obstacle's record changes, the list either is kept or loses exactly position i, an obstacle that stays is grounded or on screen, and the scores never drop |
| Revision13.StepObstacles | src/game.js:558-673 | the backward obstacle loop: grounded obstacles come through untouched, no new obstacle appears, the segments' total never falls, and the scores never drop |
| Revision13.MarkPushes | src/game.js:675-689 | with the umbrella open, exactly the obstacles held by segments are marked, each by its own pixel contact with the player; with it closed nothing changes |
| Revision13.MarkTest | src/game.js:680-686 | an idle obstacle in pixel contact with the player starts a push of 0.5 away from the player |
| Revision13.MarkOne | src/game.js:678-687 | one step of the marking scan |
| Revision13.ApplyPushes | src/game.js:691-729 | the push loop: the removals from the list match the drop in the total count, obstacles without a push speed are untouched, and no grounded obstacle is deflected |
| Revision13.ObstaclePhase | src/game.js:558-729 | the obstacle loop, then marking and pushing, keep the invariants, and the scores never drop |
| Revision13.Update | src/game.js:488-753 | a paused or finished game does not change; otherwise the invariants hold, the scores never drop, and a segment at ten or more ends the game |
| Legacy.FirstInRowIsFirst | game.js:345-349 | the first overlapping obstacle of one list, or none exactly when none overlaps |
| Legacy.FirstAcrossIsFirst | game.js:344-351 | the first overlapping obstacle in segment-then-list order, or none exactly when none overlaps |
| Legacy.GroundCollisionIsFirst | game.js:341-352 | null for a deflected faller, or when no grounded box overlaps; otherwise the first overlapping grounded obstacle in scan order |
| Legacy.FindGroundCollision | game.js:341-352 | the scan with early return computes the ground collision |
| Legacy.IsHighestUnique | game.js:355-369 | the highest top is unique |
| Legacy.HighestAt | game.js:355-369 | at most 350, at most the y of every grounded obstacle whose x range strictly overlaps, and equal to 350 or to one of them |
| Legacy.SettleY | game.js:641-653 | never below the expected position; more than 2 above it, the obstacle drops by exactly 3, or to the expected position if that is nearer; otherwise it snaps to it |
| Legacy.SettleReaches | game.js:641-646 | an obstacle d above its expected position reaches it within ⌈d/3⌉ ticks |
| Legacy.SelfSupportRise | game.js:636-639 | an obstacle held by a segment is its own support, so it settles at least its own height higher |
| Legacy.PiledObstacleRises | game.js:636-639 | the same climb for an obstacle found by id in the segments |
| Legacy.PushZone | game.js:580-585 | the zone is the player's box widened by 20 on each side, centred on the player |
| Legacy.MarksEveryIdleObstacle | game.js:580-590 | the push test always passes, so every idle obstacle is pushed at ±2, away from the player's centre |
| Legacy.MarkPushes | game.js:576-593 | with the umbrella open, every obstacle held by a segment gets the legacy mark; with it closed nothing changes |
| Legacy.MarkOne | game.js:579-591 | one step of the marking scan |
| Legacy.Settle | game.js:636-654 | the obstacle settles against the highest top found in the segments as they are now; held by a segment, it climbs by at least its height |
| Legacy.PushOne | game.js:598-654 | the push, then the settle of an obstacle no longer pushed; the removals from the list match the drop in the total count |
| Legacy.ApplyPushes | game.js:595-656 | the grounded loop keeps the invariant, and the removals from the list match the drop in the total count |
| Legacy.LandOn | game.js:472-486 | the faller rests on the grounded obstacle's top and joins the segment under its centre, leaving the countdown alone |
| Legacy.FallStep | game.js:458-487 | the faller moves; if it overlaps a grounded obstacle it lands on the first one found, otherwise it only moves |
| Legacy.MoveAirborne | game.js:458-494 | a deflected obstacle flies through the piles; any other falls, and lands on the first grounded obstacle its box overlaps, joining the segment under its centre |
| Legacy.MoveAndStrike | game.js:458-522 | movement, then the umbrella check; only this obstacle's record changes and the score never drops |
| Legacy.LearnCheck | game.js:524-534 | while learning and not meditating, a box touch by an airborne, undeflected obstacle teaches and nudges it away |
| Legacy.ContactCheck | game.js:536-545 | outside learning, or while meditating, a box touch by an airborne, undeflected obstacle ends the game |
| Legacy.TouchPlayer | game.js:524-545 | the learning and contact checks; only this obstacle's record changes |
| Legacy.GroundLanding | game.js:547-567 | an airborne obstacle reaching 350 lands there, deflected or not, and joins its segment; only an undeflected one winds the countdown up |
| Legacy.StepAirborne | game.js:458-567 | an airborne obstacle's whole turn changes only its own record |
| Legacy.StepObstacle | game.js:452-573 | a grounded obstacle is skipped and nothing changes; otherwise only that obstacle's record changes, the list either is kept or loses exactly position i, an obstacle that stays is grounded or on screen, and the scores never drop |
| Legacy.StepObstacles | game.js:451-574 | the backward obstacle loop: grounded obstacles come through untouched, no new obstacle appears, the segments' total never falls, and the scores never drop |
| Legacy.ObstaclePhase | game.js:451-656 | the obstacle loop, then marking and the grounded loop, keep the invariant, and the scores never drop |
| Legacy.Update | game.js:381-680 | a paused or finished game does not change; otherwise the invariant holds, the scores never drop, and a segment at ten or more ends the game |

## Left out

- Drawing. `drawSprite`, `drawPlayer`, `drawObstacle`, the meters, countdown,
  overlay and game-over screens, `draw` and `gameLoop` only paint the canvas.
- The DOM and `localStorage`. The stored high score is a constructor
  parameter, and `setItem`, `textContent` and `updateScore` are not modelled.
- Randomness and trigonometry. A spawn takes an already-built obstacle:
  `Obstacles.Spawnable` bounds what `createObstacle` can produce. The 2%
  spawn roll becomes an optional obstacle passed to `Update`. The random
  knowledge message becomes an index parameter.
- Obstacles.Spawnable: a meteor's velocity is bounded (|vx| ≤ 1.5, vy > 0)
  but is not tied to the sine and cosine of an angle in [-30°, 30°].
- IEEE-754 arithmetic. Positions, velocities, power, the speed modifier and
  friction are exact reals. No bound is given on how many ticks friction
  takes to stop a push.
- The sprite bitmaps. Masks are parameters. The kind's sprite size (12 or 16
  by 16 cells) appears only through the obstacle's width and height.
- Event wiring. `keyup`, `preventDefault` and the `keys` table are left out.
  A tick takes the three arrow states as a `Keys` record, and a key press is
  A, B, Space or another key.
- In `game.js`, a new obstacle has no `pushing` or `pushVelocityX` field.
  Both are read as falsy, so they are modelled as `false` and `0`.
- Game.World.ResetGame: requires the grace timer in [0, 10], which `Valid()`
  always guarantees; the code resets from any state.
- Revision13.StepObstacles: states the invariants, that no obstacle appears and that grounded obstacles come through untouched; it does not state which airborne obstacles leave or their new records.
- Legacy.StepObstacles: states the invariant, that no obstacle appears and that grounded obstacles come through untouched; it does not state which airborne obstacles leave or their new records.
- Revision13.StepObstacle: the record after the obstacle's turn, which the removal test reads, is not stated in terms of the state before the turn, so only "an obstacle that stays is grounded or on screen" is promised; `Game.World.RemoveIfGone` states the removal rule in both directions on that record.
- Legacy.StepObstacle: likewise, the record after the turn is not stated in terms of the state before it, so only "an obstacle that stays is grounded or on screen" is promised; `Game.World.RemoveIfGone` states the removal rule in both directions.
- Revision13.ApplyPushes: states conservation of the count, the frame and the invariants, not each obstacle's final position; `Game.World.Push` states the single step.
- Legacy.ApplyPushes: states conservation of the count, the frame and the invariant, not each obstacle's final position or settled height; `Game.World.Push` and `Legacy.Settle` state the single steps.
- Legacy.PushOne: states the climb and conservation, not the full new state; `Game.World.Push` and `Legacy.Settle` state those.
- Revision13.ObstaclePhase: states the invariants and that the scores never drop, not the full new state.
- Legacy.ObstaclePhase: states the invariant and that the scores never drop, not the full new state.
- Revision13.Update: states the pause, the invariants, that the scores never drop and the pile hazard, not the full new state.
- Legacy.Update: states the pause, the invariant, that the scores never drop and the pile hazard, not the full new state.
- Revision13.MoveAndStrike: states that only this obstacle's record changes and the score never drops; `Revision13.MoveAirborne` and `Game.World.Strike` state the exact effects.
- Revision13.TouchPlayer: states that only this obstacle's record changes and the high score never drops; `Revision13.LearnCheck` and `Revision13.ContactCheck` state the exact effects.
- Revision13.StepAirborne: states that only this obstacle's record changes and the invariants hold; the methods it calls state the exact effects.
- Legacy.MoveAndStrike: states that only this obstacle's record changes and the score never drops; `Legacy.MoveAirborne` and `Game.World.Strike` state the exact effects.
- Legacy.TouchPlayer: states that only this obstacle's record changes; `Legacy.LearnCheck` and `Legacy.ContactCheck` state the exact effects.
- Legacy.StepAirborne: states that only this obstacle's record changes; the methods it calls state the exact effects.
