/** The game's numeric rules, shared by both revisions: umbrella power,
    meditation stillness, the countdown, knowledge, the high score and the
    narrative choices. Each is a pure step; the world applies them. */
module Rules {
  import opened Constants

  /** The first narrative choice: none yet, fight, or learn. */
  datatype Choice = NoChoice | Fight | Learn

  /** The second choice, offered only after learning: none yet, learn faster, or meditate. */
  datatype SecondChoice = NoSecond | Faster | Meditate

  /** A pressed key as far as the game cares: A or a, B or b, the space bar, or any other. */
  datatype Key = KeyA | KeyB | Space | OtherKey

  /** The arrow keys held during a tick. */
  datatype Keys = Keys(left: bool, right: bool, up: bool)

  /** The player's new column after the arrow keys are applied, and whether
      it moved. */
  datatype Move = Move(x: real, moved: bool)

  /** The umbrella part of the player: open or closed, the grace ticks left
      before it closes, and the power left. */
  datatype Umbrella = Umbrella(open: bool, openTime: int, power: real)

  function MaxReal(a: real, b: real): real { if a >= b then a else b }

  function MinReal(a: real, b: real): real { if a <= b then a else b }

  function MinInt(a: int, b: int): int { if a <= b then a else b }

  /** Largest power the player can have: half again as much after choosing to fight. */
  function PowerCap(c: Choice): real
  {
    if c == Fight then MAX_POWER * 1.5 else MAX_POWER
  }

  /** Multiplier of the player's speed over a pile of `density` obstacles. */
  function SpeedModifier(density: int): (m: real)
    ensures density >= 0 ==> 0.15 <= m <= 1.0
    ensures density == 0 ==> m == 1.0
    ensures density >= 5 ==> m == 0.15
  {
    MaxReal(0.15, 1.0 - density as real * 0.2)
  }

  /** Bigger piles never make the player faster. */
  lemma SpeedModifierMonotone(d1: int, d2: int)
    requires d1 <= d2
    ensures SpeedModifier(d2) <= SpeedModifier(d1)
  {
  }

  /** Horizontal movement by `step`: left while right of x = 0, then right
      while left of the last column (x = 496), the second test seeing the
      first move. */
  function MovePlayer(x: real, step: real, keys: Keys): (r: Move)
    ensures r.moved <==> (keys.left && x > 0.0) || (keys.right && (if keys.left && x > 0.0 then x - step else x) < (GAME_WIDTH - PLAYER_WIDTH) as real)
    ensures !r.moved ==> r.x == x
    ensures keys.left && !keys.right ==> r.x == (if x > 0.0 then x - step else x)
    ensures keys.right && !keys.left ==> r.x == (if x < (GAME_WIDTH - PLAYER_WIDTH) as real then x + step else x)
    ensures keys.left && keys.right ==>
              var l := if x > 0.0 then x - step else x;
              r.x == (if l < (GAME_WIDTH - PLAYER_WIDTH) as real then l + step else l)
  {
    var left := if keys.left && x > 0.0 then Move(x - step, true) else Move(x, false);
    if keys.right && left.x < (GAME_WIDTH - PLAYER_WIDTH) as real then Move(left.x + step, true) else left
  }

  /** The player never strays more than one step beyond either screen edge. */
  lemma PlayerStaysNearScreen(x: real, step: real, keys: Keys, bound: real)
    requires 0.0 <= step <= bound
    requires -bound <= x <= (GAME_WIDTH - PLAYER_WIDTH) as real + bound
    ensures var r := MovePlayer(x, step, keys).x;
            -bound <= r <= (GAME_WIDTH - PLAYER_WIDTH) as real + bound
  {
  }

  /** One tick of umbrella control. Holding up with power left opens the
      umbrella, restarts the grace period and drains power (never below 0).
      Otherwise the grace period runs down, the umbrella closes when it is
      over, and a closed umbrella recharges power up to 100, whatever the mode.
      No power forces the umbrella closed. */
  function UmbrellaStep(u: Umbrella, up: bool): (r: Umbrella)
    ensures u.power >= 0.0 ==> r.power >= 0.0
    ensures r.power <= 0.0 ==> !r.open
    ensures up && u.power > 0.0 ==> r.power == MaxReal(0.0, u.power - POWER_DRAIN_RATE) && r.openTime == UMBRELLA_GRACE_TICKS
    ensures up && u.power > 0.0 ==> (r.open <==> r.power > 0.0)
    ensures !(up && u.power > 0.0) && u.openTime > 0 ==> (r.open <==> u.open && r.power > 0.0)
    ensures !(up && u.power > 0.0) && u.openTime > 0 ==> r.openTime == u.openTime - 1 && r.power == (if u.open then u.power else MinReal(MAX_POWER, u.power + POWER_RECHARGE_RATE))
    ensures !(up && u.power > 0.0) && u.openTime <= 0 ==> !r.open && r.openTime == u.openTime && r.power == MinReal(MAX_POWER, u.power + POWER_RECHARGE_RATE)
    ensures r.power > u.power ==> r.power <= MAX_POWER
  {
    var stepped :=
      if up && u.power > 0.0 then
        Umbrella(true, UMBRELLA_GRACE_TICKS, MaxReal(0.0, u.power - POWER_DRAIN_RATE))
      else
        var v := if u.openTime > 0 then u.(openTime := u.openTime - 1) else u.(open := false);
        if !v.open then v.(power := MinReal(MAX_POWER, v.power + POWER_RECHARGE_RATE)) else v;
    if stepped.power <= 0.0 then stepped.(open := false) else stepped
  }

  /** Power stays within [0, cap] and the grace timer within [0, 10] for either cap. */
  lemma UmbrellaStepBounded(u: Umbrella, up: bool, c: Choice)
    requires 0.0 <= u.power <= PowerCap(c) && 0 <= u.openTime <= UMBRELLA_GRACE_TICKS
    ensures var r := UmbrellaStep(u, up);
            0.0 <= r.power <= PowerCap(c) && 0 <= r.openTime <= UMBRELLA_GRACE_TICKS
  {
  }

  /** With fight mode's full 150 power, the first tick that recharges drops it to 100. */
  lemma FightPowerFallsBack(openTime: int)
    requires openTime <= 0
    ensures UmbrellaStep(Umbrella(false, openTime, PowerCap(Fight)), false).power == MAX_POWER
  {
  }

  /** Meditation's stillness timer and the knowledge it earns. */
  datatype Stillness = Stillness(timer: int, knowledge: int)

  /** One meditation tick: a still player with the umbrella closed advances
      the timer; the 60th such tick adds one knowledge (capped at 100) and
      restarts the timer; moving or an open umbrella restarts it. */
  function StillnessStep(s: Stillness, moved: bool, umbrellaOpen: bool): (r: Stillness)
    ensures moved || umbrellaOpen ==> r == Stillness(0, s.knowledge)
    ensures 0 <= s.timer < STILLNESS_TICKS && 0 <= s.knowledge <= MAX_KNOWLEDGE ==>
              0 <= r.timer < STILLNESS_TICKS && 0 <= r.knowledge <= MAX_KNOWLEDGE
    ensures r.knowledge == s.knowledge || r.knowledge == MinInt(MAX_KNOWLEDGE, s.knowledge + 1)
    ensures r.knowledge != s.knowledge ==> r.timer == 0 && s.timer + 1 >= STILLNESS_TICKS
  {
    if !moved && !umbrellaOpen then
      var t := s.timer + 1;
      if t >= STILLNESS_TICKS then Stillness(0, MinInt(MAX_KNOWLEDGE, s.knowledge + 1))
      else Stillness(t, s.knowledge)
    else
      Stillness(0, s.knowledge)
  }

  /** `n` still ticks with the umbrella closed. */
  function StillTicks(s: Stillness, n: nat): Stillness
    decreases n
  {
    if n == 0 then s else StillTicks(StillnessStep(s, false, false), n - 1)
  }

  /** Fewer than 60 still ticks from a reset timer only count. */
  lemma {:induction false} StillTicksCount(k: int, n: nat)
    requires n < STILLNESS_TICKS
    ensures StillTicks(Stillness(0, k), n) == Stillness(n, k)
  {
    if n > 0 {
      StillTicksShift(Stillness(0, k), n - 1);
      StillTicksCount(k, n - 1);
    }
  }

  /** Running n + 1 ticks is running n ticks and then one more. */
  lemma {:induction false} StillTicksShift(s: Stillness, n: nat)
    decreases n
    ensures StillTicks(s, n + 1) == StillnessStep(StillTicks(s, n), false, false)
  {
    if n > 0 {
      StillTicksShift(StillnessStep(s, false, false), n - 1);
    }
  }

  /** Sixty still ticks from a reset timer earn exactly one knowledge (capped)
      and leave the timer reset. */
  lemma SixtyStillTicks(k: int)
    ensures StillTicks(Stillness(0, k), STILLNESS_TICKS) == Stillness(0, MinInt(MAX_KNOWLEDGE, k + 1))
  {
    StillTicksShift(Stillness(0, k), STILLNESS_TICKS - 1);
    StillTicksCount(k, STILLNESS_TICKS - 1);
  }

  /** A non-deflected obstacle coming to rest adds one to a running countdown,
      up to 10; a countdown that has reached 0 stays there. */
  function CountdownAfterLanding(c: int): (r: int)
    ensures 0 <= c <= MAX_COUNTDOWN ==> 0 <= r <= MAX_COUNTDOWN
    ensures c <= 0 ==> r == c
    ensures 0 < c < MAX_COUNTDOWN ==> r == c + 1
    ensures c >= MAX_COUNTDOWN ==> r == MAX_COUNTDOWN
  {
    if c > 0 then
      var d := c + 1;
      if d > MAX_COUNTDOWN then MAX_COUNTDOWN else d
    else c
  }

  /** The countdown after a deflection, and whether the first choice is now due. */
  datatype CountdownStep = CountdownStep(countdown: int, choiceDue: bool)

  /** A deflection takes one from a running countdown; reaching 0 before any
      choice calls for the first choice. */
  function CountdownAfterDeflection(c: int, choiceMade: Choice): (r: CountdownStep)
    ensures 0 <= c <= MAX_COUNTDOWN ==> 0 <= r.countdown <= MAX_COUNTDOWN
    ensures c > 0 ==> r.countdown == c - 1
    ensures c <= 0 ==> r.countdown == c
    ensures r.choiceDue <==> c == 1 && choiceMade == NoChoice
  {
    if c > 0 then
      var d := c - 1;
      CountdownStep(d, d == 0 && choiceMade == NoChoice)
    else CountdownStep(c, false)
  }

  /** Once the countdown is at 0, deflections never call for a choice again. */
  lemma ChoiceDueOnce(c: int, choiceMade: Choice)
    requires CountdownAfterDeflection(c, choiceMade).choiceDue
    ensures var next := CountdownAfterDeflection(c, choiceMade).countdown;
            next == 0 && forall m :: !CountdownAfterDeflection(next, m).choiceDue
  {
  }

  /** Knowledge after touching an obstacle while learning: the gain, capped at 100. */
  function GainKnowledge(k: int, rate: int): (r: int)
    ensures 0 <= k <= MAX_KNOWLEDGE && rate >= 0 ==> k <= r <= MAX_KNOWLEDGE
    ensures r == k + rate || r == MAX_KNOWLEDGE
    ensures r <= k + rate
    ensures r <= MAX_KNOWLEDGE
  {
    MinInt(MAX_KNOWLEDGE, k + rate)
  }

  /** The high score after a game over: the session score when it beats the record. */
  function HighScoreAfterGameOver(score: int, highScore: int): (r: int)
    ensures r >= highScore && r >= score
    ensures r == score || r == highScore
  {
    if score > highScore then score else highScore
  }

  /** The second choice is due while learning, before it is made, with a full meter. */
  predicate SecondChoiceDue(c: Choice, s: SecondChoice, knowledge: int)
  {
    c == Learn && s == NoSecond && knowledge >= MAX_KNOWLEDGE
  }

  /** What a key press decides while the choice overlay is shown. */
  datatype Decision = Undecided | ChoseFight | ChoseLearn | ChoseFaster | ChoseMeditate

  /** The choice a key press makes: A or B pick fight or learn while no choice
      is made, and learn faster or meditate after learning while no second
      choice is made; nothing else and nothing outside the overlay counts. */
  function Decide(showingChoice: bool, c: Choice, s: SecondChoice, key: Key): (d: Decision)
    ensures d != Undecided ==> showingChoice
    ensures d == ChoseFight <==> showingChoice && key == KeyA && c == NoChoice
    ensures d == ChoseLearn <==> showingChoice && key == KeyB && c == NoChoice
    ensures d == ChoseFaster <==> showingChoice && key == KeyA && c == Learn && s == NoSecond
    ensures d == ChoseMeditate <==> showingChoice && key == KeyB && c == Learn && s == NoSecond
  {
    if !showingChoice then Undecided
    else if key == KeyA then
      if c == NoChoice then ChoseFight
      else if c == Learn && s == NoSecond then ChoseFaster
      else Undecided
    else if key == KeyB then
      if c == NoChoice then ChoseLearn
      else if c == Learn && s == NoSecond then ChoseMeditate
      else Undecided
    else Undecided
  }

  /** While the overlay is up, A and B are always accepted. */
  lemma OverlayAcceptsChoiceKeys(c: Choice, s: SecondChoice, key: Key)
    requires c == NoChoice || (c == Learn && s == NoSecond)
    requires key == KeyA || key == KeyB
    ensures Decide(true, c, s, key) != Undecided
  {
  }

  /** The narrative's progress: 0 before any choice, 1 after the first, 2 after the second. */
  function Stage(c: Choice, s: SecondChoice): nat
  {
    if c == NoChoice then 0 else if s == NoSecond then 1 else 2
  }

  /** The choices after a decision. */
  function ChoicesAfter(c: Choice, s: SecondChoice, d: Decision): (Choice, SecondChoice)
  {
    match d
    case Undecided => (c, s)
    case ChoseFight => (Fight, s)
    case ChoseLearn => (Learn, s)
    case ChoseFaster => (c, Faster)
    case ChoseMeditate => (c, Meditate)
  }

  /** A second choice is only ever made after learning. */
  ghost predicate ProgressionOk(c: Choice, s: SecondChoice)
  {
    s != NoSecond ==> c == Learn
  }

  /** The narrative never regresses: every decision moves exactly one stage on,
      keeps the choices consistent, and a made choice is never replaced. */
  lemma DecisionAdvances(showingChoice: bool, c: Choice, s: SecondChoice, key: Key)
    requires ProgressionOk(c, s)
    ensures var d := Decide(showingChoice, c, s, key);
            var (c', s') := ChoicesAfter(c, s, d);
            && ProgressionOk(c', s')
            && (d == Undecided ==> (c', s') == (c, s))
            && (d != Undecided ==> Stage(c', s') == Stage(c, s) + 1)
            && (c != NoChoice ==> c' == c)
            && (s != NoSecond ==> s' == s)
  {
  }
}
