/** The session form of src/components/SplashScreen.tsx: its fields, its defaults and its start guard. */
module SplashScreen {
  import opened Wrappers
  import opened JsNumber
  import opened Records

  /** `SessionConfig`, what a started session runs with. */
  datatype SessionConfig = SessionConfig(wordGoal: int, timeGoalSeconds: int, minimumWpm: int, noBackspaceMode: bool)

  /** The form's state: the goals as typed, the time goal in minutes. */
  datatype SplashForm = SplashForm(wordGoal: int, timeGoalMinutes: int, minimumWpm: int, noBackspaceMode: bool)

  /** The form before any stored defaults arrive. */
  const InitialForm := SplashForm(500, 30, 30, false)

  /** A configuration the start guard lets through: positive goals and a whole number of minutes. */
  ghost predicate ValidConfig(c: SessionConfig) {
    c.wordGoal >= 1 && c.minimumWpm >= 1 && c.timeGoalSeconds >= 60 && c.timeGoalSeconds % 60 == 0
  }

  /** `parseInt(e.target.value) || 0`: what a number field stores; NaN (and zero) become 0. */
  function FieldValue(input: string): (r: int)
    ensures ParseInt(input).None? ==> r == 0
    ensures ParseInt(input).Some? ==> r == ParseInt(input).value
  {
    match ParseInt(input)
    case None => 0
    case Some(v) => if v == 0 then 0 else v
  }

  /**
   * `handleStart`: no session (the source alerts instead) when a goal is below 1;
   * otherwise the configuration with the minutes turned into seconds.
   */
  function HandleStart(form: SplashForm): (r: Option<SessionConfig>)
    ensures r.None? <==> form.wordGoal < 1 || form.timeGoalMinutes < 1 || form.minimumWpm < 1
    ensures r.Some? ==> ValidConfig(r.value)
    ensures r.Some? ==> r.value.timeGoalSeconds == form.timeGoalMinutes * 60
    ensures r.Some? ==> r.value.wordGoal == form.wordGoal && r.value.minimumWpm == form.minimumWpm &&
                        r.value.noBackspaceMode == form.noBackspaceMode
  {
    if form.wordGoal < 1 || form.timeGoalMinutes < 1 || form.minimumWpm < 1 then None
    else Some(SessionConfig(form.wordGoal, form.timeGoalMinutes * 60, form.minimumWpm, form.noBackspaceMode))
  }

  /**
   * `loadDefaults`: the stored defaults replace the form's fields, the time goal
   * shown in whole minutes (rounded down); no stored row (or a failed fetch)
   * leaves the form as it was.
   */
  function LoadDefaults(form: SplashForm, settings: Option<UserSettings>): (r: SplashForm)
    ensures settings.None? ==> r == form
    ensures settings.Some? ==> var s := settings.value;
      && r.wordGoal == s.defaultWordGoal && r.minimumWpm == s.defaultMinimumWpm
      && r.noBackspaceMode == s.noBackspaceMode
      && r.timeGoalMinutes * 60 <= s.defaultTimeGoalSeconds < r.timeGoalMinutes * 60 + 60
  {
    match settings
    case None => form
    case Some(s) =>
      SplashForm(s.defaultWordGoal, FloorDiv(s.defaultTimeGoalSeconds, 60), s.defaultMinimumWpm, s.noBackspaceMode)
  }

  /** A stored time goal that is a whole number of minutes is shown as exactly those minutes. */
  lemma LoadWholeMinutes(form: SplashForm, s: UserSettings, minutes: int)
    requires s.defaultTimeGoalSeconds == minutes * 60
    ensures LoadDefaults(form, Some(s)).timeGoalMinutes == minutes
  {
    var m := LoadDefaults(form, Some(s)).timeGoalMinutes;
    var d := m - minutes;
    assert d * 60 <= 0 < d * 60 + 60;
  }

  /**
   * A configuration stored as the defaults and loaded back starts the same session:
   * load-then-start is the identity on valid configurations.
   */
  lemma StartFromStoredConfig(form: SplashForm, c: SessionConfig, s: UserSettings)
    requires ValidConfig(c)
    requires s.defaultWordGoal == c.wordGoal && s.defaultTimeGoalSeconds == c.timeGoalSeconds
    requires s.defaultMinimumWpm == c.minimumWpm && s.noBackspaceMode == c.noBackspaceMode
    ensures HandleStart(LoadDefaults(form, Some(s))) == Some(c)
  {
    var minutes := c.timeGoalSeconds / 60;
    assert c.timeGoalSeconds == minutes * 60;
    LoadWholeMinutes(form, s, minutes);
  }

  /** A field `parseInt` cannot read stores 0, and the form then refuses to start. */
  lemma UnreadableFieldRefused(form: SplashForm, input: string)
    requires ParseInt(input).None?
    ensures HandleStart(form.(wordGoal := FieldValue(input))) == None
    ensures HandleStart(form.(timeGoalMinutes := FieldValue(input))) == None
    ensures HandleStart(form.(minimumWpm := FieldValue(input))) == None
  {
  }
}
