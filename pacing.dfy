/**
 * The per-tick pacing rule of `checkWarningState` in src/App.tsx: the time spent
 * below the minimum rate, the alarm flag and the target-rate latch. The
 * accumulator counts half-second ticks, so the source's 3-second threshold is 6.
 */
module Pacing {

  /** The audio-manager calls the session makes; the core only emits them. */
  datatype Sound = AlarmPlay | AlarmStop | TargetWpm | Typewriter | Paragraph

  /**
   * `belowThresholdTimeRef` in half-seconds, `warningActiveRef` and
   * `targetWpmReachedRef`.
   */
  datatype PacingState = PacingState(belowHalfSeconds: nat, warningActive: bool, targetReached: bool)

  /** The tick interval is 500 ms and the alarm needs 3 s below the minimum: 6 ticks. */
  const AlarmTicks: nat := 6

  /** The state `handleStart` sets up. */
  const Idle := PacingState(0, false, false)

  datatype Step = Step(next: PacingState, sounds: seq<Sound>)

  /**
   * One tick of `checkWarningState` once the rate `wpm` is known: the alarm rule,
   * then the target-rate rule, each emitting at most one sound.
   */
  function Tick(s: PacingState, wpm: int, minimum: int, target: int): (r: Step)
    ensures |r.sounds| <= 2
    ensures wpm < minimum ==> r.next.belowHalfSeconds == s.belowHalfSeconds + 1
    ensures wpm >= minimum ==> r.next.belowHalfSeconds == 0 && !r.next.warningActive
    ensures AlarmPlay in r.sounds <==> wpm < minimum && !s.warningActive && s.belowHalfSeconds + 1 >= AlarmTicks
    ensures AlarmStop in r.sounds <==> wpm >= minimum && s.warningActive
    ensures TargetWpm in r.sounds <==> wpm >= target && !s.targetReached
    ensures r.next.targetReached <==> wpm >= target
  {
    var below := wpm < minimum;
    var acc := if below then s.belowHalfSeconds + 1 else 0;
    var alarmOn := if below then acc >= AlarmTicks || s.warningActive else false;
    var alarmSound :=
      if below && acc >= AlarmTicks && !s.warningActive then [AlarmPlay]
      else if !below && s.warningActive then [AlarmStop]
      else [];
    var targetSound := if wpm >= target && !s.targetReached then [TargetWpm] else [];
    var latch := if wpm >= target && !s.targetReached then true
      else if wpm < target then false
      else s.targetReached;
    Step(PacingState(acc, alarmOn, latch), alarmSound + targetSound)
  }

  /** The alarm is on exactly when the writer has been below the minimum for 3 s. */
  ghost predicate Consistent(s: PacingState) {
    s.warningActive <==> s.belowHalfSeconds >= AlarmTicks
  }

  lemma TickKeepsConsistent(s: PacingState, wpm: int, minimum: int, target: int)
    requires Consistent(s)
    ensures Consistent(Tick(s, wpm, minimum, target).next)
  {
  }

  /**
   * The weaker fact every state of a session keeps, including after the goal
   * handler turns the alarm off without touching the accumulator: a sounding
   * alarm has 3 s below the minimum behind it.
   */
  ghost predicate AlarmBacked(s: PacingState) {
    s.warningActive ==> s.belowHalfSeconds >= AlarmTicks
  }

  lemma TickKeepsAlarmBacked(s: PacingState, wpm: int, minimum: int, target: int)
    requires AlarmBacked(s)
    ensures AlarmBacked(Tick(s, wpm, minimum, target).next)
  {
  }

  /** The ticks `wpms`, in order, starting from `s`; the sounds of all ticks in order. */
  function Run(s: PacingState, wpms: seq<int>, minimum: int, target: int): Step {
    if wpms == [] then Step(s, [])
    else
      var before := Run(s, wpms[..|wpms| - 1], minimum, target);
      var last := Tick(before.next, wpms[|wpms| - 1], minimum, target);
      Step(last.next, before.sounds + last.sounds)
  }

  // ------------------------------------------------------------ reference counts

  /** How many of the latest readings are below the minimum, without a break. */
  function TrailingSlow(wpms: seq<int>, minimum: int): nat {
    if wpms == [] || wpms[|wpms| - 1] >= minimum then 0
    else TrailingSlow(wpms[..|wpms| - 1], minimum) + 1
  }

  /** How many prefixes of `wpms` end on the sixth slow reading in a row. */
  function AlarmStarts(wpms: seq<int>, minimum: int): nat {
    if wpms == [] then 0
    else AlarmStarts(wpms[..|wpms| - 1], minimum) + (if TrailingSlow(wpms, minimum) == AlarmTicks then 1 else 0)
  }

  /** How many readings at or above the minimum end a run of at least six slow ones. */
  function AlarmStops(wpms: seq<int>, minimum: int): nat {
    if wpms == [] then 0
    else
      var prefix := wpms[..|wpms| - 1];
      AlarmStops(prefix, minimum) +
        (if wpms[|wpms| - 1] >= minimum && TrailingSlow(prefix, minimum) >= AlarmTicks then 1 else 0)
  }

  /** How many readings reach the target when the previous reading (if any) did not. */
  function UpCrossings(wpms: seq<int>, target: int): nat {
    if wpms == [] then 0
    else
      var prefix := wpms[..|wpms| - 1];
      UpCrossings(prefix, target) +
        (if wpms[|wpms| - 1] >= target && (prefix == [] || prefix[|prefix| - 1] < target) then 1 else 0)
  }

  /** The state after a run from the state `handleStart` sets, as a function of the readings alone. */
  function StateAfter(wpms: seq<int>, minimum: int, target: int): PacingState {
    var slow := TrailingSlow(wpms, minimum);
    PacingState(slow, slow >= AlarmTicks, wpms != [] && wpms[|wpms| - 1] >= target)
  }

  /**
   * From the state `handleStart` sets, a run of readings leaves the accumulator at
   * the number of trailing slow readings, the alarm on exactly when that is at
   * least six, and the latch set exactly when the last reading reached the target.
   */
  lemma {:induction false} RunStateFromIdle(wpms: seq<int>, minimum: int, target: int)
    ensures Run(Idle, wpms, minimum, target).next == StateAfter(wpms, minimum, target)
  {
    if wpms != [] {
      RunStateFromIdle(wpms[..|wpms| - 1], minimum, target);
    }
  }

  /** How often each sound occurs in one tick. */
  lemma TickCounts(s: PacingState, wpm: int, minimum: int, target: int)
    ensures var m := multiset(Tick(s, wpm, minimum, target).sounds);
      && m[AlarmPlay] == (if wpm < minimum && !s.warningActive && s.belowHalfSeconds + 1 >= AlarmTicks then 1 else 0)
      && m[AlarmStop] == (if wpm >= minimum && s.warningActive then 1 else 0)
      && m[TargetWpm] == (if wpm >= target && !s.targetReached then 1 else 0)
      && m[Typewriter] == 0 && m[Paragraph] == 0
  {
    var sounds := Tick(s, wpm, minimum, target).sounds;
    if |sounds| == 2 {
      assert sounds == [sounds[0]] + [sounds[1]];
    } else if |sounds| == 1 {
      assert sounds == [sounds[0]];
    }
  }

  /** One tick extends a run: the state and sounds after `wpms` from the previous ones. */
  lemma RunStep(wpms: seq<int>, minimum: int, target: int)
    requires wpms != []
    ensures var prefix := wpms[..|wpms| - 1];
      var before := Run(Idle, prefix, minimum, target);
      var last := Tick(before.next, wpms[|wpms| - 1], minimum, target);
      && before.next == StateAfter(prefix, minimum, target)
      && multiset(Run(Idle, wpms, minimum, target).sounds) == multiset(before.sounds) + multiset(last.sounds)
  {
    var prefix := wpms[..|wpms| - 1];
    RunStateFromIdle(prefix, minimum, target);
    var before := Run(Idle, prefix, minimum, target);
    var last := Tick(before.next, wpms[|wpms| - 1], minimum, target);
    assert Run(Idle, wpms, minimum, target).sounds == before.sounds + last.sounds;
  }

  /** From the state `handleStart` sets, the alarm sounds once per sixth slow reading in a row. */
  lemma {:induction false} AlarmPlaysFromIdle(wpms: seq<int>, minimum: int, target: int)
    ensures multiset(Run(Idle, wpms, minimum, target).sounds)[AlarmPlay] == AlarmStarts(wpms, minimum)
  {
    if wpms != [] {
      var prefix := wpms[..|wpms| - 1];
      AlarmPlaysFromIdle(prefix, minimum, target);
      RunStep(wpms, minimum, target);
      TickCounts(Run(Idle, prefix, minimum, target).next, wpms[|wpms| - 1], minimum, target);
    }
  }

  /** From the state `handleStart` sets, the alarm stops once per recovery from an active alarm. */
  lemma {:induction false} AlarmStopsFromIdle(wpms: seq<int>, minimum: int, target: int)
    ensures multiset(Run(Idle, wpms, minimum, target).sounds)[AlarmStop] == AlarmStops(wpms, minimum)
  {
    if wpms != [] {
      var prefix := wpms[..|wpms| - 1];
      AlarmStopsFromIdle(prefix, minimum, target);
      RunStep(wpms, minimum, target);
      TickCounts(Run(Idle, prefix, minimum, target).next, wpms[|wpms| - 1], minimum, target);
    }
  }

  /** From the state `handleStart` sets, the target sound plays once per upward crossing of the target. */
  lemma {:induction false} TargetSoundsFromIdle(wpms: seq<int>, minimum: int, target: int)
    ensures multiset(Run(Idle, wpms, minimum, target).sounds)[TargetWpm] == UpCrossings(wpms, target)
  {
    if wpms != [] {
      var prefix := wpms[..|wpms| - 1];
      TargetSoundsFromIdle(prefix, minimum, target);
      RunStep(wpms, minimum, target);
      TickCounts(Run(Idle, prefix, minimum, target).next, wpms[|wpms| - 1], minimum, target);
    }
  }

  /** `n` slow readings in a row from the start sound the alarm once if `n >= 6`, never otherwise. */
  lemma {:induction false} SlowStreak(n: nat, wpm: int, minimum: int, target: int)
    requires wpm < minimum
    ensures TrailingSlow(seq(n, _ => wpm), minimum) == n
    ensures AlarmStarts(seq(n, _ => wpm), minimum) == if n >= AlarmTicks then 1 else 0
    ensures multiset(Run(Idle, seq(n, _ => wpm), minimum, target).sounds)[AlarmPlay] == if n >= AlarmTicks then 1 else 0
  {
    var w := seq(n, _ => wpm);
    if n > 0 {
      assert w[..n - 1] == seq(n - 1, _ => wpm);
      SlowStreak(n - 1, wpm, minimum, target);
    }
    AlarmPlaysFromIdle(w, minimum, target);
  }

  /** The alarm sounds on the sixth consecutive slow tick and on no earlier one. */
  lemma AlarmOnSixthTick(k: nat, wpm: int, minimum: int, target: int)
    requires wpm < minimum
    ensures var s := Run(Idle, seq(k, _ => wpm), minimum, target).next;
            AlarmPlay in Tick(s, wpm, minimum, target).sounds <==> k + 1 == AlarmTicks
  {
    var w := seq(k, _ => wpm);
    SlowStreak(k, wpm, minimum, target);
    RunStateFromIdle(w, minimum, target);
  }
}
