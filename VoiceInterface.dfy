/** The live pitch session: a recording toggle, a demo "pause" that makes the
    simulated investor react with one of eight canned lines, and a 20-bar level
    meter that jitters while recording and rests at a baseline otherwise.

    `Math.random()` is a parameter `r` with 0 <= r < 1. React's effects run right
    after the update that changed their dependencies; here that is the last step
    of the handler that made the change. */
module VoiceInterface {

  const InvestorReactions: seq<string> := [
    "Hmm, that's a bold claim. Can you back that up with data?",
    "I've heard this pitch before. What makes you different?",
    "Your numbers don't add up. Let me stop you there.",
    "Interesting... but I'm not convinced yet.",
    "That's a red flag. Explain yourself.",
    "You're losing me. Get to the point.",
    "Finally, something compelling. Continue.",
    "I've invested in 100+ startups. This sounds familiar."
  ]

  /** The level every bar rests at. */
  const BaselineLevel: real := 0.2

  /** `Array(20).fill(0.2)` */
  const Baseline: seq<real> := seq(20, _ => BaselineLevel)

  /** `Math.floor(r * investorReactions.length)` */
  function ReactionIndex(r: real): (i: nat)
    requires 0.0 <= r < 1.0
    ensures i < |InvestorReactions|
  {
    (r * |InvestorReactions| as real).Floor
  }

  /** The reaction a draw `r` selects: always a line of the pool. */
  function PickReaction(r: real): (reaction: string)
    requires 0.0 <= r < 1.0
    ensures reaction in InvestorReactions
  {
    InvestorReactions[ReactionIndex(r)]
  }

  /** Every line of the pool is selected by some draw. */
  lemma EveryReactionReachable(i: nat)
    requires i < |InvestorReactions|
    ensures exists r: real :: 0.0 <= r < 1.0 && ReactionIndex(r) == i
  {
    var r := i as real / 8.0;
    assert r * 8.0 == i as real;
    assert ReactionIndex(r) == i;
  }

  /** `Math.random() * 0.8 + 0.2`: one bar of a tick. */
  function Level(r: real): (l: real)
    requires 0.0 <= r < 1.0
    ensures BaselineLevel <= l < 1.0
  {
    r * 0.8 + 0.2
  }

  predicate AllDraws(rs: seq<real>) {
    forall i :: 0 <= i < |rs| ==> 0.0 <= rs[i] < 1.0
  }

  /** `prev.map(() => Math.random() * 0.8 + 0.2)`: a fresh sample per bar. */
  function Tick(prev: seq<real>, rs: seq<real>): (next: seq<real>)
    requires |rs| == |prev| && AllDraws(rs)
    ensures |next| == |prev|
    ensures forall i :: 0 <= i < |next| ==> next[i] == Level(rs[i])
  {
    seq(|prev|, i requires 0 <= i < |prev| => Level(rs[i]))
  }

  /** The meter's bars lie between the baseline and full height. */
  predicate LevelsInRange(ls: seq<real>) {
    forall i :: 0 <= i < |ls| ==> BaselineLevel <= ls[i] < 1.0
  }

  /** The status line under the indicator. */
  function StatusText(isRecording: bool, isPaused: bool): string {
    if isRecording then (if isPaused then "Paused - Investor is thinking..." else "Recording your pitch")
    else "Ready to analyze"
  }

  /** The three situations read three different status lines. */
  lemma StatusTextCases(isRecording: bool, isPaused: bool)
    ensures StatusText(isRecording, isPaused) == "Ready to analyze" <==> !isRecording
    ensures StatusText(isRecording, isPaused) == "Recording your pitch" <==> isRecording && !isPaused
    ensures StatusText(isRecording, isPaused) == "Paused - Investor is thinking..." <==> isRecording && isPaused
  {
  }

  /** The indicator dot's three conditional classes. */
  function IndicatorClasses(isRecording: bool, isPaused: bool): seq<string> {
    (if isRecording && !isPaused then ["bg-primary animate-pulse"] else [])
    + (if isPaused then ["bg-accent"] else [])
    + (if !isRecording then ["bg-muted-foreground"] else [])
  }

  /** In every state the session can reach (paused only while recording) the dot
      gets exactly one colour; a paused idle session would get two. */
  lemma OneIndicatorColour(isRecording: bool, isPaused: bool)
    requires isPaused ==> isRecording
    ensures |IndicatorClasses(isRecording, isPaused)| == 1
    ensures |IndicatorClasses(false, true)| == 2
  {
  }

  /** The component: its `useState` variables (the never-written transcript
      aside) and the timers its effects and handlers have set up. */
  class Session {
    var isRecording: bool
    var isPaused: bool
    var aiResponse: string
    var audioLevel: seq<real>
    /** The level effect's `setInterval` is running. */
    var levelTimerActive: bool
    /** The reaction effect's `setTimeout` is armed and not yet fired or cleared. */
    var reactionTimerArmed: bool
    /** `simulatePause` timeouts not yet fired; nothing ever clears them. */
    var pendingUnpauses: nat

    ghost predicate Valid()
      reads this
    {
      |audioLevel| == 20 && LevelsInRange(audioLevel)
      && (isPaused ==> isRecording)
      && levelTimerActive == (isRecording && !isPaused)
      && (reactionTimerArmed ==> isRecording && isPaused)
      && (!levelTimerActive ==> audioLevel == Baseline)
    }

    constructor ()
      ensures Valid()
      ensures !isRecording && !isPaused && aiResponse == "" && audioLevel == Baseline
      ensures !levelTimerActive && !reactionTimerArmed && pendingUnpauses == 0
    {
      isRecording := false;
      isPaused := false;
      aiResponse := "";
      audioLevel := Baseline;
      levelTimerActive := false;
      reactionTimerArmed := false;
      pendingUnpauses := 0;
    }

    /** Both effects after a change of `isRecording` or `isPaused`: their cleanups
        stop the interval and clear the reaction timeout; then the level effect
        either rests the meter or starts a new interval, and the reaction effect
        arms a new timeout if the session is paused while recording. */
    method RerunEffects()
      requires isPaused ==> isRecording
      requires isRecording && !isPaused ==> audioLevel == Baseline
      modifies this
      ensures Valid()
      ensures isRecording == old(isRecording) && isPaused == old(isPaused)
      ensures aiResponse == old(aiResponse) && pendingUnpauses == old(pendingUnpauses)
      ensures levelTimerActive == (isRecording && !isPaused)
      ensures reactionTimerArmed == (isRecording && isPaused)
      ensures audioLevel == if levelTimerActive then old(audioLevel) else Baseline
    {
      levelTimerActive, reactionTimerArmed := false, false;
      if !isRecording || isPaused {
        audioLevel := Baseline;
      } else {
        levelTimerActive := true;
      }
      if isPaused && isRecording {
        reactionTimerArmed := true;
      }
    }

    /** `toggleRecording`. Stopping ends any pause and keeps the last reaction on
        screen; starting clears it and leaves the pause flag as it was. */
    method ToggleRecording()
      requires Valid()
      modifies this
      ensures Valid()
      ensures pendingUnpauses == old(pendingUnpauses)
      ensures old(isRecording) ==>
                !isRecording && !isPaused && aiResponse == old(aiResponse)
                && audioLevel == Baseline && !levelTimerActive && !reactionTimerArmed
      ensures !old(isRecording) ==>
                isRecording && isPaused == old(isPaused) && aiResponse == ""
                && audioLevel == Baseline && levelTimerActive && !reactionTimerArmed
    {
      if isRecording {
        isRecording := false;
        isPaused := false;
      } else {
        isRecording := true;
        aiResponse := "";
      }
      RerunEffects();
    }

    /** `simulatePause`, whose button is only rendered while recording: the
        session pauses and a timeout to unpause it is scheduled. Pausing an
        already paused session changes no dependency, so no effect re-runs. */
    method SimulatePause()
      requires Valid() && isRecording
      modifies this
      ensures Valid()
      ensures isRecording && isPaused && pendingUnpauses == old(pendingUnpauses) + 1
      ensures aiResponse == old(aiResponse)
      ensures !old(isPaused) ==> reactionTimerArmed && !levelTimerActive && audioLevel == Baseline
      ensures old(isPaused) ==> reactionTimerArmed == old(reactionTimerArmed) && audioLevel == old(audioLevel)
    {
      var wasPaused := isPaused;
      isPaused := true;
      pendingUnpauses := pendingUnpauses + 1;
      if !wasPaused {
        RerunEffects();
      }
    }

    /** The oldest `simulatePause` timeout fires and clears the pause flag,
        whatever has happened since. */
    method FireUnpause()
      requires Valid() && pendingUnpauses > 0
      modifies this
      ensures Valid()
      ensures !isPaused && isRecording == old(isRecording) && pendingUnpauses == old(pendingUnpauses) - 1
      ensures aiResponse == old(aiResponse) && audioLevel == old(audioLevel)
      ensures !reactionTimerArmed
      ensures old(isPaused) ==> levelTimerActive
    {
      var wasPaused := isPaused;
      isPaused := false;
      pendingUnpauses := pendingUnpauses - 1;
      if wasPaused {
        RerunEffects();
      }
    }

    /** One tick of the level interval, which runs only while recording
        unpaused: every bar gets a fresh sample, the number of bars stays 20. */
    method TickLevels(rs: seq<real>)
      requires Valid() && levelTimerActive
      requires |rs| == |audioLevel| && AllDraws(rs)
      modifies this
      ensures Valid()
      ensures audioLevel == Tick(old(audioLevel), rs) && |audioLevel| == 20
      ensures isRecording == old(isRecording) && isPaused == old(isPaused) && aiResponse == old(aiResponse)
      ensures levelTimerActive && reactionTimerArmed == old(reactionTimerArmed)
      ensures pendingUnpauses == old(pendingUnpauses)
    {
      audioLevel := Tick(audioLevel, rs);
    }

    /** The armed reaction timeout fires (`triggerInvestorReaction`): the drawn
        line is shown and returned as the argument of `onInvestorResponse`. */
    method FireReaction(r: real) returns (reaction: string)
      requires Valid() && reactionTimerArmed && 0.0 <= r < 1.0
      modifies this
      ensures Valid()
      ensures reaction == PickReaction(r) && reaction in InvestorReactions
      ensures aiResponse == reaction && !reactionTimerArmed
      ensures isRecording == old(isRecording) && isPaused == old(isPaused)
      ensures audioLevel == old(audioLevel) && levelTimerActive == old(levelTimerActive)
      ensures pendingUnpauses == old(pendingUnpauses)
    {
      reaction := PickReaction(r);
      aiResponse := reaction;
      reactionTimerArmed := false;
    }

    /** The parent re-rendered with a new `onInvestorResponse`: only the reaction
        effect depends on it; it is cleaned up and run again. */
    method CallbackChanged()
      requires Valid()
      modifies this
      ensures Valid()
      ensures reactionTimerArmed == (isRecording && isPaused)
      ensures isRecording == old(isRecording) && isPaused == old(isPaused) && aiResponse == old(aiResponse)
      ensures audioLevel == old(audioLevel) && levelTimerActive == old(levelTimerActive)
      ensures pendingUnpauses == old(pendingUnpauses)
    {
      reactionTimerArmed := isRecording && isPaused;
    }
  }

  /** Two pauses in a row during one recording: the first pause's timeout ends
      the second pause early, and stopping afterwards rests the meter. */
  method DoublePauseScenario() returns (pausedAfterFirstTimeout: bool, leftOver: nat, restsAfterStop: bool)
    ensures !pausedAfterFirstTimeout && leftOver == 1 && restsAfterStop
  {
    var s := new Session();
    s.ToggleRecording();
    s.SimulatePause();
    s.SimulatePause();
    s.FireUnpause();
    pausedAfterFirstTimeout := s.isPaused;
    leftOver := s.pendingUnpauses;
    s.ToggleRecording();
    restsAfterStop := s.audioLevel == Baseline;
  }
}
