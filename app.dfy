/**
 * The session controller of src/App.tsx: the screen it shows, the running
 * session's counters, the three interval handles, the pacing state of the
 * alarm, and the handlers that start, feed, finish and leave a session.
 *
 * The React state and the refs that mirror it are one field each here. The
 * clock is the `now` argument (milliseconds, `Date.now()`), each interval
 * callback is a method the environment calls, and the calls into the audio
 * manager, `clearInterval` and `saveSession` are returned as `Effect`s in the
 * order the source makes them.
 */
module App {
  import opened Wrappers
  import opened JsText
  import opened JsNumber
  import opened WpmCalculator
  import opened Pacing
  import opened Records
  import opened SplashScreen

  /** `AppView`. */
  datatype View = SplashView | WritingView | HistoryView | SettingsView

  /** What a handler asks of the world outside the component. */
  datatype Effect =
    | Audio(call: Sound)
    | ClearInterval(handle: nat)
    | SaveSession(record: WritingSession)
    | SetCustomSound(slot: AudioSlot, url: string)
    | SetTypewriterEnabled(enabled: bool)
    | WarmUpAudio
    | CleanupAudio

  /** `Math.floor((now - start) / 1000)`: whole seconds since `start`. */
  function ElapsedSeconds(now: int, start: int): (r: int)
    ensures 1000 * r <= now - start < 1000 * r + 1000
    ensures now >= start ==> r >= 0
  {
    FloorDiv(now - start, 1000)
  }

  /**
   * `duration > 0 ? Math.round((wc / duration) * 60) : 0`, the session's mean
   * rate in words per minute, with the ratio taken exactly.
   */
  function AverageWpm(wordCount: int, duration: int): (r: int)
    ensures duration <= 0 ==> r == 0
    ensures duration > 0 ==> 2 * duration * r - duration <= 120 * wordCount < 2 * duration * r + duration
  {
    if duration > 0 then RoundHalfUp(wordCount * 60, duration) else 0
  }

  /** The mean rate is never negative and grows with the word count. */
  lemma AverageWpmMonotone(w1: int, w2: int, duration: int)
    requires 0 <= w1 <= w2
    ensures 0 <= AverageWpm(w1, duration) <= AverageWpm(w2, duration)
  {
    if duration > 0 {
      RoundHalfUpNonNegative(w1 * 60, duration);
      RoundHalfUpMonotone(w1 * 60, w2 * 60, duration);
    }
  }

  /** A session that wrote `k` words a minute for whole minutes reports exactly `k`. */
  lemma AverageWpmOfSteadyRate(k: int, minutes: int)
    requires minutes >= 1
    ensures AverageWpm(k * minutes, minutes * 60) == k
  {
    assert k * minutes * 60 == k * (minutes * 60);
    RoundHalfUpExact(k, minutes * 60);
  }

  /** The record both session-ending handlers save; they differ only in the word-goal flag. */
  function SessionRecord(cfg: SessionConfig, wc: int, duration: int, minimum: int, noBackspace: bool,
                         wordGoalAchieved: bool): (r: WritingSession)
    ensures r.timeGoalAchieved <==> duration <= cfg.timeGoalSeconds
    ensures r.createdAt.None?
  {
    WritingSession(wc, duration, AverageWpm(wc, duration), cfg.wordGoal, cfg.timeGoalSeconds, minimum,
                   wordGoalAchieved, duration <= cfg.timeGoalSeconds, noBackspace, None)
  }

  /** What `handleStopSession` saves: nothing for a session without a word. */
  function StopRecord(cfg: SessionConfig, wc: int, duration: int, minimum: int, noBackspace: bool): (r: Option<WritingSession>)
    ensures r.Some? <==> wc > 0
    ensures r.Some? ==> (r.value.wordGoalAchieved <==> wc >= cfg.wordGoal)
  {
    if wc > 0 then Some(SessionRecord(cfg, wc, duration, minimum, noBackspace, wc >= cfg.wordGoal)) else None
  }

  /** Stopping a session whose goal is met saves what reaching the goal saves. */
  lemma StopAfterGoalRecordsGoal(cfg: SessionConfig, wc: int, duration: int, minimum: int, noBackspace: bool)
    requires ValidConfig(cfg) && wc >= cfg.wordGoal
    ensures StopRecord(cfg, wc, duration, minimum, noBackspace) ==
            Some(SessionRecord(cfg, wc, duration, minimum, noBackspace, true))
  {
  }

  function SaveOf(o: Option<WritingSession>): (r: seq<Effect>)
    ensures o.None? ==> r == []
    ensures o.Some? ==> r == [SaveSession(o.value)]
  {
    match o
    case None => []
    case Some(rec) => [SaveSession(rec)]
  }

  /** `if (ref.current) clearInterval(ref.current)`: only a non-zero handle is cleared. */
  function ClearIfSet(h: Option<nat>): (r: seq<Effect>)
    ensures |r| <= 1
    ensures r != [] <==> h.Some? && h.value != 0
  {
    if h.Some? && h.value != 0 then [ClearInterval(h.value)] else []
  }

  /** The `clearInterval` calls of `clearAllIntervals`, in order. */
  function Clears(i: Intervals): (r: seq<Effect>)
    ensures forall e :: e in r ==> e.ClearInterval?
    ensures forall h: nat :: h != 0 && (i.wpm == Some(h) || i.timer == Some(h) || i.warning == Some(h)) ==> ClearInterval(h) in r
  {
    ClearIfSet(i.wpm) + ClearIfSet(i.timer) + ClearIfSet(i.warning)
  }

  /** What both session-ending handlers and the history button do first: clear the intervals, stop the alarm. */
  function Teardown(i: Intervals): seq<Effect> {
    Clears(i) + [Audio(AlarmStop)]
  }

  /** `if (use && url) set…(url, true)`. */
  function CustomSound(s: UserSettings, slot: AudioSlot): seq<Effect> {
    if SlotEnabled(s, slot) && SlotUrl(s, slot) != "" then [SetCustomSound(slot, SlotUrl(s, slot))] else []
  }

  /** The audio-manager configuration `loadAudioSettings` applies for a stored row, in its order. */
  function AudioSetup(s: UserSettings): seq<Effect> {
    CustomSound(s, AlarmSound) + [SetTypewriterEnabled(s.typewriterSoundEnabled.GetOr(true))]
    + CustomSound(s, TypewriterSound) + CustomSound(s, ParagraphSound) + CustomSound(s, TargetWpmSound)
  }

  /**
   * A custom recording is installed exactly when the row enables it and gives it
   * a non-empty URL; the key click is switched on unless the row switches it off.
   */
  lemma AudioSetupInstalls(s: UserSettings, slot: AudioSlot, url: string)
    ensures SetCustomSound(slot, url) in AudioSetup(s) <==> SlotEnabled(s, slot) && SlotUrl(s, slot) == url && url != ""
    ensures SetTypewriterEnabled(s.typewriterSoundEnabled.GetOr(true)) in AudioSetup(s)
  {
    var e := SetCustomSound(slot, url);
    if SlotEnabled(s, slot) && SlotUrl(s, slot) == url && url != "" {
      assert e in CustomSound(s, slot);
    }
    var a := CustomSound(s, AlarmSound);
    assert AudioSetup(s)[|a|] == SetTypewriterEnabled(s.typewriterSoundEnabled.GetOr(true));
  }

  /** The sounds of one text change: the key click, and the page-turn sound when a paragraph break is typed. */
  function TypingSounds(oldText: string, newText: string, isKeypress: bool): (r: seq<Effect>)
    ensures |r| <= 2
    ensures Audio(Typewriter) in r <==> isKeypress
    ensures Audio(Paragraph) in r <==> isKeypress && EndsWith(newText, "\n\n") && !EndsWith(oldText, "\n\n")
  {
    (if isKeypress then [Audio(Typewriter)] else [])
    + (if isKeypress && EndsWith(newText, "\n\n") && !EndsWith(oldText, "\n\n") then [Audio(Paragraph)] else [])
  }

  /** A third newline after a paragraph break does not play the paragraph sound again. */
  lemma ParagraphSoundOncePerBreak(oldText: string, c: char)
    requires EndsWith(oldText, "\n\n")
    ensures Audio(Paragraph) !in TypingSounds(oldText, oldText + [c], true)
  {
  }

  /** Typing the second newline of a break after text that did not end in one plays it. */
  lemma ParagraphSoundOnBreak(before: string)
    requires before == [] || before[|before| - 1] != '\n'
    ensures Audio(Paragraph) in TypingSounds(before + "\n", before + "\n\n", true)
  {
    var o, n := before + "\n", before + "\n\n";
    assert n[|n| - 2..] == "\n\n";
    assert |o| >= 2 ==> o[|o| - 2] == before[|before| - 1];
  }

  /** `minimumWPM`, `targetWPM`, `noBackspaceMode`, `fullscreenEnabled`: the stored preferences a session runs with. */
  datatype Preferences = Preferences(minimumWpm: int, targetWpm: int, noBackspaceMode: bool, fullscreenEnabled: bool)

  /** The preferences before any stored row arrives. */
  const DefaultPreferences := Preferences(30, 60, false, true)

  /** The preferences a stored row selects, with the source's defaults for missing fields. */
  function PreferencesOf(s: UserSettings): Preferences {
    Preferences(s.defaultMinimumWpm, s.targetWpm.GetOr(60), s.noBackspaceMode, s.fullscreenEnabled.GetOr(true))
  }

  /** `wpmIntervalRef`, `timerIntervalRef`, `warningCheckRef`. */
  datatype Intervals = Intervals(wpm: Option<nat>, timer: Option<nat>, warning: Option<nat>) {
    /** Some interval of a session is scheduled. */
    predicate Running() {
      wpm.Some? || timer.Some? || warning.Some?
    }
  }

  const NoIntervals := Intervals(None, None, None)

  /**
   * The state the writing screen shows: the configuration, the text, the word
   * count, the current and elapsed figures, and the goal and modal flags. The
   * refs mirroring `config`, `text` and `wordCount` always hold the same values.
   */
  datatype Progress = Progress(config: Option<SessionConfig>, text: string, wordCount: nat, currentWpm: nat,
                               elapsedSeconds: int, goalAchieved: bool, showVictory: bool)

  /** The screen state `handleStart` (with a configuration) and `handleStopSession` (without) leave. */
  function Blank(config: Option<SessionConfig>): Progress {
    Progress(config, "", 0, 0, 0, false, false)
  }

  /** `App`: one instance of the component's state. */
  class WritingApp {
    const calculator: WPMCalculator
    var view: View
    var progress: Progress
    /** `belowThresholdTimeRef`, `warningActiveRef` (and its state copy), `targetWpmReachedRef`. */
    var pacing: PacingState
    var prefs: Preferences
    var startTime: int
    var intervals: Intervals

    /**
     * What every handler keeps: a sounding alarm has 3 s below the minimum
     * behind it; intervals run only in the writing view and never behind the
     * victory modal; the writing view always has a configuration.
     */
    ghost predicate Valid()
      reads this
    {
      && AlarmBacked(pacing)
      && (intervals.Running() ==> view == WritingView && !progress.showVictory)
      && (view == WritingView ==> progress.config.Some?)
    }

    /** The state on mount. */
    constructor ()
      ensures Valid()
      ensures view == SplashView && progress == Blank(None) && pacing == Idle && prefs == DefaultPreferences
      ensures startTime == 0 && intervals == NoIntervals
      ensures fresh(calculator) && calculator.wordHistory == []
    {
      calculator := new WPMCalculator();
      view := SplashView;
      progress := Blank(None);
      pacing := Idle;
      prefs := DefaultPreferences;
      startTime := 0;
      intervals := NoIntervals;
    }

    /**
     * `loadAudioSettings` once `getUserSettings` has answered: no row (or a
     * failed fetch) changes nothing; a row sets the preferences and configures
     * the audio manager.
     */
    method LoadAudioSettings(settings: Option<UserSettings>) returns (effects: seq<Effect>)
      requires Valid()
      modifies this
      ensures Valid()
      ensures settings.None? ==> effects == [] && prefs == old(prefs)
      ensures settings.Some? ==> effects == AudioSetup(settings.value) && prefs == PreferencesOf(settings.value)
      ensures unchanged(this`view, this`progress, this`pacing, this`startTime, this`intervals)
    {
      effects := [];
      if settings.Some? {
        effects := AudioSetup(settings.value);
        prefs := PreferencesOf(settings.value);
      }
    }

    /**
     * The cleanup of the mount effect, run when the component unmounts: the
     * audio manager is released and no state of the component changes.
     */
    method Unmount() returns (effects: seq<Effect>)
      requires Valid()
      ensures effects == [CleanupAudio]
    {
      effects := [CleanupAudio];
    }

    /** `clearAllIntervals`: clear every live handle, then forget all three. */
    method ClearAllIntervals() returns (effects: seq<Effect>)
      modifies this
      ensures effects == Clears(old(intervals))
      ensures intervals == NoIntervals
      ensures unchanged(this`view, this`progress, this`pacing, this`prefs, this`startTime)
    {
      effects := Clears(intervals);
      intervals := NoIntervals;
    }

    /**
     * `handleStart` at time `now`, the three `setInterval` calls answering with
     * the given handles: a fresh session in the writing view. Started from any
     * other view, no interval of an earlier session was still scheduled.
     * The audio manager is warmed up before anything else.
     */
    method HandleStart(cfg: SessionConfig, now: int, wpmId: nat, timerId: nat, warningId: nat)
      returns (effects: seq<Effect>)
      requires Valid()
      modifies this, calculator
      ensures Valid()
      ensures effects == [WarmUpAudio]
      ensures old(view) != WritingView ==> !old(intervals).Running()
      ensures view == WritingView && progress == Blank(Some(cfg)) && pacing == Idle
      ensures calculator.wordHistory == [] && startTime == now
      ensures intervals == Intervals(Some(wpmId), Some(timerId), Some(warningId))
      ensures prefs == old(prefs)
    {
      effects := [WarmUpAudio];
      progress := Blank(Some(cfg));
      pacing := Idle;
      calculator.Reset();
      startTime := now;
      view := WritingView;
      intervals := Intervals(Some(wpmId), Some(timerId), Some(warningId));
    }

    /**
     * The 2-second interval: show the rolling rate. When the estimator throws
     * the callback ends before `setCurrentWPM`, and only the evicted history remains.
     */
    method WpmTick(now: int)
      requires Valid() && intervals.wpm.Some?
      modifies this, calculator
      ensures Valid()
      ensures calculator.wordHistory == HistoryAfterRate(old(calculator.wordHistory), now)
      ensures progress == match RateOf(old(calculator.wordHistory), now)
                          case Rate(w) => old(progress).(currentWpm := w)
                          case Crash => old(progress)
      ensures unchanged(this`view, this`pacing, this`prefs, this`startTime, this`intervals)
    {
      var r := calculator.CalculateRollingWPM(now);
      if r.Rate? {
        progress := progress.(currentWpm := r.wpm);
      }
    }

    /** The 1-second interval: the clock shown in the stats bar. */
    method ClockTick(now: int)
      requires Valid() && intervals.timer.Some?
      modifies this
      ensures Valid()
      ensures progress == old(progress).(elapsedSeconds := ElapsedSeconds(now, startTime))
      ensures unchanged(this`view, this`pacing, this`prefs, this`startTime, this`intervals)
    {
      progress := progress.(elapsedSeconds := ElapsedSeconds(now, startTime));
    }

    /**
     * `checkWarningState`, the half-second interval: nothing without a session
     * or in its first 10 s; otherwise one pacing tick on the rolling rate, with
     * the stored minimum and target. A throwing estimator ends the callback
     * with the pacing state untouched. The alarm never sounds outside a
     * running session.
     */
    method CheckWarningState(now: int) returns (sounds: seq<Sound>)
      requires Valid() && intervals.warning.Some?
      modifies this, calculator
      ensures Valid()
      ensures progress.config.None? || ElapsedSeconds(now, startTime) < 10 ==>
        sounds == [] && pacing == old(pacing) && calculator.wordHistory == old(calculator.wordHistory)
      ensures progress.config.Some? && ElapsedSeconds(now, startTime) >= 10 ==>
        && calculator.wordHistory == HistoryAfterRate(old(calculator.wordHistory), now)
        && match RateOf(old(calculator.wordHistory), now)
           case Crash => sounds == [] && pacing == old(pacing)
           case Rate(w) => Step(pacing, sounds) == Tick(old(pacing), w, prefs.minimumWpm, prefs.targetWpm)
      ensures sounds != [] ==> view == WritingView && !progress.showVictory
      ensures unchanged(this`view, this`progress, this`prefs, this`startTime, this`intervals)
    {
      sounds := [];
      if progress.config.None? {
        return;
      }
      if ElapsedSeconds(now, startTime) < 10 {
        return;
      }
      var r := calculator.CalculateRollingWPM(now);
      if r.Crash? {
        return;
      }
      TickKeepsAlarmBacked(pacing, r.wpm, prefs.minimumWpm, prefs.targetWpm);
      var step := Tick(pacing, r.wpm, prefs.minimumWpm, prefs.targetWpm);
      pacing := step.next;
      sounds := step.sounds;
    }

    /**
     * `handleGoalReached` at time `now`: stop every interval and the alarm, save
     * the session as one that met its word goal, and show the victory modal.
     */
    method HandleGoalReached(finalWordCount: Option<int>, now: int) returns (effects: seq<Effect>)
      requires Valid()
      modifies this
      ensures Valid()
      ensures effects == Teardown(old(intervals)) +
        match progress.config
        case None => []
        case Some(cfg) =>
          [SaveSession(SessionRecord(cfg, finalWordCount.GetOr(progress.wordCount), ElapsedSeconds(now, startTime),
                                     prefs.minimumWpm, prefs.noBackspaceMode, true))]
      ensures progress == old(progress).(showVictory := true)
      ensures pacing == old(pacing).(warningActive := false) && intervals == NoIntervals
      ensures unchanged(this`view, this`prefs, this`startTime)
    {
      effects := ClearAllIntervals();
      effects := effects + [Audio(AlarmStop)];
      pacing := pacing.(warningActive := false);
      var duration := ElapsedSeconds(now, startTime);
      var wc := finalWordCount.GetOr(progress.wordCount);
      if progress.config.Some? {
        var rec := SessionRecord(progress.config.value, wc, duration, prefs.minimumWpm, prefs.noBackspaceMode, true);
        effects := effects + [SaveSession(rec)];
      }
      progress := progress.(showVictory := true);
    }

    /**
     * `handleTextChange`: the typing sounds, the new text and its word count fed
     * to the estimator at `now`, and the goal handler the first time the count
     * reaches the word goal.
     */
    method HandleTextChange(newText: string, isKeypress: bool, now: int) returns (effects: seq<Effect>)
      requires Valid()
      modifies this, calculator
      ensures Valid()
      ensures var words := Words(newText);
        var typed := old(progress).(text := newText, wordCount := words);
        var reached := typed.config.Some? && words >= typed.config.value.wordGoal && !typed.goalAchieved;
        && calculator.wordHistory == HistoryAfterAdd(old(calculator.wordHistory), words, now)
        && (reached ==>
              && effects == TypingSounds(old(progress.text), newText, isKeypress) + (Teardown(old(intervals)) +
                 [SaveSession(SessionRecord(typed.config.value, words, ElapsedSeconds(now, startTime),
                                            prefs.minimumWpm, prefs.noBackspaceMode, true))])
              && progress == typed.(goalAchieved := true, showVictory := true)
              && pacing == old(pacing).(warningActive := false) && intervals == NoIntervals)
        && (!reached ==>
              && effects == TypingSounds(old(progress.text), newText, isKeypress)
              && progress == typed && pacing == old(pacing) && intervals == old(intervals))
      ensures unchanged(this`view, this`prefs, this`startTime)
    {
      effects := TypingSounds(progress.text, newText, isKeypress);
      var words := CountWords(newText);
      progress := progress.(text := newText, wordCount := words);
      calculator.AddEntry(words, now);
      if progress.config.Some? && words >= progress.config.value.wordGoal && !progress.goalAchieved {
        progress := progress.(goalAchieved := true);
        var more := HandleGoalReached(Some(words), now);
        effects := effects + more;
      }
    }

    /**
     * `handleStopSession` at time `now`: stop every interval and the alarm,
     * save the session if it has a configuration and a word, and return to the
     * splash screen with the session forgotten.
     */
    method HandleStopSession(now: int) returns (effects: seq<Effect>)
      requires Valid()
      modifies this
      ensures Valid()
      ensures effects == Teardown(old(intervals)) +
        match old(progress.config)
        case None => []
        case Some(cfg) =>
          SaveOf(StopRecord(cfg, old(progress.wordCount), ElapsedSeconds(now, startTime),
                            prefs.minimumWpm, prefs.noBackspaceMode))
      ensures view == SplashView && progress == Blank(None)
      ensures pacing == old(pacing).(warningActive := false) && intervals == NoIntervals
      ensures unchanged(this`prefs, this`startTime)
    {
      effects := ClearAllIntervals();
      effects := effects + [Audio(AlarmStop)];
      pacing := pacing.(warningActive := false);
      var duration := ElapsedSeconds(now, startTime);
      var wc := progress.wordCount;
      if progress.config.Some? {
        effects := effects + SaveOf(StopRecord(progress.config.value, wc, duration, prefs.minimumWpm, prefs.noBackspaceMode));
      }
      view := SplashView;
      progress := Blank(None);
    }

    /** `handleNewSession`, the victory modal's button: back to the splash screen. */
    method HandleNewSession()
      requires Valid() && progress.showVictory
      modifies this
      ensures Valid()
      ensures view == SplashView && progress == old(progress).(showVictory := false)
      ensures unchanged(this`pacing, this`prefs, this`startTime, this`intervals)
    {
      progress := progress.(showVictory := false);
      view := SplashView;
    }

    /** `handleViewHistory`: stop every interval and the alarm, then show the history. */
    method HandleViewHistory() returns (effects: seq<Effect>)
      requires Valid()
      modifies this
      ensures Valid()
      ensures effects == Teardown(old(intervals))
      ensures view == HistoryView && intervals == NoIntervals
      ensures unchanged(this`progress, this`pacing, this`prefs, this`startTime)
    {
      effects := ClearAllIntervals();
      effects := effects + [Audio(AlarmStop)];
      view := HistoryView;
    }

    /** `handleViewSettings`, from the splash screen. */
    method HandleViewSettings()
      requires Valid() && view == SplashView
      modifies this
      ensures Valid()
      ensures view == SettingsView
      ensures unchanged(this`progress, this`pacing, this`prefs, this`startTime, this`intervals)
    {
      view := SettingsView;
    }

    /** `handleBackToHome`, from the history screen. */
    method HandleBackToHome()
      requires Valid() && (view == HistoryView || view == SettingsView)
      modifies this
      ensures Valid()
      ensures view == SplashView
      ensures unchanged(this`progress, this`pacing, this`prefs, this`startTime, this`intervals)
    {
      view := SplashView;
    }

    /** `handleSettingsBack`: reload the stored settings, then show the splash screen. */
    method HandleSettingsBack(settings: Option<UserSettings>) returns (effects: seq<Effect>)
      requires Valid() && view == SettingsView
      modifies this
      ensures Valid()
      ensures view == SplashView
      ensures settings.None? ==> effects == [] && prefs == old(prefs)
      ensures settings.Some? ==> effects == AudioSetup(settings.value) && prefs == PreferencesOf(settings.value)
      ensures unchanged(this`progress, this`pacing, this`startTime, this`intervals)
    {
      effects := LoadAudioSettings(settings);
      view := SplashView;
    }
  }
}
