/** The narrative state and the meters shown on screen: countdown, choice
    overlay, the two choices, knowledge and its message, the learning rate,
    the walking speed and the stillness timer, with the updates the game
    makes to them. */
module Story {
  import opened Constants
  import opened Rules

  /** The knowledge message on screen: none, or message `index` of the ten. */
  datatype Message = NoMessage | Shown(index: int)

  datatype Narrative = Narrative(
    countdown: int,
    showingChoice: bool,
    choiceMade: Choice,
    secondChoiceMade: SecondChoice,
    knowledge: int,
    knowledgeText: Message,
    knowledgeTextTimer: int,
    knowledgeGainRate: int,
    playerSpeed: real,
    stillnessTimer: int)

  /** The narrative stays in range: countdown in [0, 10], knowledge in
      [0, 100], a second choice only after learning, the overlay only while a
      choice is pending, speed and gain rate set by the faster choice, the
      stillness timer below 60, and a message on screen exactly while its
      timer runs. */
  ghost predicate NarrativeValid(n: Narrative)
  {
    && 0 <= n.countdown <= MAX_COUNTDOWN
    && 0 <= n.knowledge <= MAX_KNOWLEDGE
    && ProgressionOk(n.choiceMade, n.secondChoiceMade)
    && (n.showingChoice ==> n.choiceMade == NoChoice || (n.choiceMade == Learn && n.secondChoiceMade == NoSecond))
    && n.playerSpeed == (if n.secondChoiceMade == Faster then PLAYER_SPEED * 1.5 else PLAYER_SPEED)
    && n.knowledgeGainRate == (if n.secondChoiceMade == Faster then 15 else 10)
    && 0 <= n.stillnessTimer < STILLNESS_TICKS
    && 0 <= n.knowledgeTextTimer <= MESSAGE_TICKS
    && (n.knowledgeText.Shown? <==> n.knowledgeTextTimer > 0)
    && (n.knowledgeText.Shown? ==> 0 <= n.knowledgeText.index < MESSAGE_COUNT)
  }

  /** The narrative of a new game: countdown 10, no choice, no knowledge, no
      message, base speed and gain rate. */
  function Start(): (n: Narrative)
    ensures NarrativeValid(n) && Stage(n.choiceMade, n.secondChoiceMade) == 0
  {
    Narrative(MAX_COUNTDOWN, false, NoChoice, NoSecond, 0, NoMessage, 0, 10, PLAYER_SPEED, 0)
  }

  /** One tick of the message timer: it runs down and the message disappears
      when it reaches 0. */
  function TickMessage(n: Narrative): (r: Narrative)
    ensures NarrativeValid(n) ==> NarrativeValid(r)
    ensures n.knowledgeTextTimer > 0 ==> r.knowledgeTextTimer == n.knowledgeTextTimer - 1
    ensures n.knowledgeTextTimer <= 0 ==> r == n
    ensures r.knowledgeText != n.knowledgeText ==> r.knowledgeText == NoMessage && r.knowledgeTextTimer == 0
    ensures r == n.(knowledgeText := r.knowledgeText, knowledgeTextTimer := r.knowledgeTextTimer)
  {
    if n.knowledgeTextTimer > 0 then
      var t := n.knowledgeTextTimer - 1;
      n.(knowledgeTextTimer := t, knowledgeText := if t == 0 then NoMessage else n.knowledgeText)
    else n
  }

  /** A message stays on screen for exactly 120 ticks. */
  function TickMessages(n: Narrative, ticks: nat): Narrative
    decreases ticks
  {
    if ticks == 0 then n else TickMessages(TickMessage(n), ticks - 1)
  }

  lemma {:induction false} MessageLasts(n: Narrative, ticks: nat)
    requires n.knowledgeText.Shown? && 0 < n.knowledgeTextTimer && ticks <= n.knowledgeTextTimer
    decreases ticks
    ensures TickMessages(n, ticks).knowledgeTextTimer == n.knowledgeTextTimer - ticks
    ensures TickMessages(n, ticks).knowledgeText == (if n.knowledgeTextTimer == ticks then NoMessage else n.knowledgeText)
  {
    if ticks > 0 {
      var m := TickMessage(n);
      assert TickMessages(n, ticks) == TickMessages(m, ticks - 1);
      if m.knowledgeTextTimer > 0 {
        MessageLasts(m, ticks - 1);
      } else {
        assert ticks == 1 && TickMessages(m, 0) == m;
      }
    }
  }

  /** A full knowledge meter while learning opens the overlay for the second choice. */
  function OfferSecondChoice(n: Narrative): (r: Narrative)
    ensures NarrativeValid(n) ==> NarrativeValid(r)
    ensures r.showingChoice <==> n.showingChoice || SecondChoiceDue(n.choiceMade, n.secondChoiceMade, n.knowledge)
    ensures r == n.(showingChoice := r.showingChoice)
  {
    if SecondChoiceDue(n.choiceMade, n.secondChoiceMade, n.knowledge) then n.(showingChoice := true) else n
  }

  /** One tick of meditation, which only counts after choosing to meditate. */
  function MeditationTick(n: Narrative, moved: bool, umbrellaOpen: bool): (r: Narrative)
    ensures NarrativeValid(n) ==> NarrativeValid(r)
    ensures n.secondChoiceMade != Meditate ==> r == n
    ensures n.secondChoiceMade == Meditate ==>
              Stillness(r.stillnessTimer, r.knowledge) == StillnessStep(Stillness(n.stillnessTimer, n.knowledge), moved, umbrellaOpen)
    ensures r == n.(stillnessTimer := r.stillnessTimer, knowledge := r.knowledge)
  {
    if n.secondChoiceMade == Meditate then
      var s := StillnessStep(Stillness(n.stillnessTimer, n.knowledge), moved, umbrellaOpen);
      n.(stillnessTimer := s.timer, knowledge := s.knowledge)
    else n
  }

  /** A deflection: the countdown runs down, and the first choice is offered
      when it reaches 0 before any choice. */
  function AfterDeflection(n: Narrative): (r: Narrative)
    ensures NarrativeValid(n) ==> NarrativeValid(r)
    ensures r.countdown == CountdownAfterDeflection(n.countdown, n.choiceMade).countdown
    ensures r.showingChoice <==> n.showingChoice || (n.countdown == 1 && n.choiceMade == NoChoice)
    ensures r == n.(countdown := r.countdown, showingChoice := r.showingChoice)
  {
    var step := CountdownAfterDeflection(n.countdown, n.choiceMade);
    n.(countdown := step.countdown, showingChoice := n.showingChoice || step.choiceDue)
  }

  /** A non-deflected obstacle came to rest in a segment: the countdown winds back up. */
  function AfterLanding(n: Narrative): (r: Narrative)
    ensures NarrativeValid(n) ==> NarrativeValid(r)
    ensures r.countdown == CountdownAfterLanding(n.countdown)
    ensures r == n.(countdown := r.countdown)
  {
    n.(countdown := CountdownAfterLanding(n.countdown))
  }

  /** Touching an obstacle while learning: knowledge grows by the gain rate
      (up to 100) and message `message` shows for 120 ticks. */
  function AfterTouch(n: Narrative, message: int): (r: Narrative)
    requires 0 <= message < MESSAGE_COUNT
    ensures NarrativeValid(n) ==> NarrativeValid(r) && r.knowledge >= n.knowledge
    ensures r.knowledge == GainKnowledge(n.knowledge, n.knowledgeGainRate)
    ensures r.knowledgeText == Shown(message) && r.knowledgeTextTimer == MESSAGE_TICKS
    ensures r == n.(knowledge := r.knowledge, knowledgeText := r.knowledgeText, knowledgeTextTimer := r.knowledgeTextTimer)
  {
    n.(knowledge := GainKnowledge(n.knowledge, n.knowledgeGainRate), knowledgeText := Shown(message),
       knowledgeTextTimer := MESSAGE_TICKS)
  }

  /** The narrative after a decision on the overlay. Fight and learn restart
      the countdown; faster empties the knowledge meter and raises speed to
      4.5 and the gain rate to 15; meditate empties the knowledge meter. Every
      decision closes the overlay and moves the story one stage on. */
  function Decided(n: Narrative, d: Decision): (r: Narrative)
    requires d != Undecided ==> n.showingChoice
    requires d == ChoseFight || d == ChoseLearn ==> n.choiceMade == NoChoice
    requires d == ChoseFaster || d == ChoseMeditate ==> n.choiceMade == Learn && n.secondChoiceMade == NoSecond
    ensures NarrativeValid(n) ==> NarrativeValid(r)
    ensures (r.choiceMade, r.secondChoiceMade) == ChoicesAfter(n.choiceMade, n.secondChoiceMade, d)
    ensures d == Undecided ==> r == n
    ensures d != Undecided ==> !r.showingChoice
    ensures NarrativeValid(n) && d != Undecided ==> Stage(r.choiceMade, r.secondChoiceMade) == Stage(n.choiceMade, n.secondChoiceMade) + 1
    ensures r.countdown == (if d == ChoseFight || d == ChoseLearn then MAX_COUNTDOWN else n.countdown)
    ensures r.knowledge == (if d == ChoseFaster || d == ChoseMeditate then 0 else n.knowledge)
    ensures d == ChoseFaster ==> r.playerSpeed == PLAYER_SPEED * 1.5 && r.knowledgeGainRate == 15
    ensures d != ChoseFaster ==> r.playerSpeed == n.playerSpeed && r.knowledgeGainRate == n.knowledgeGainRate
    ensures r.knowledgeText == n.knowledgeText && r.knowledgeTextTimer == n.knowledgeTextTimer
    ensures r.stillnessTimer == n.stillnessTimer
  {
    match d
    case Undecided => n
    case ChoseFight => n.(choiceMade := Fight, showingChoice := false, countdown := MAX_COUNTDOWN)
    case ChoseLearn => n.(choiceMade := Learn, showingChoice := false, countdown := MAX_COUNTDOWN)
    case ChoseFaster =>
      n.(secondChoiceMade := Faster, showingChoice := false, knowledge := 0,
         playerSpeed := PLAYER_SPEED * 1.5, knowledgeGainRate := 15)
    case ChoseMeditate => n.(secondChoiceMade := Meditate, showingChoice := false, knowledge := 0)
  }
}
