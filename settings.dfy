/**
 * The settings page, src/components/Settings.tsx: the defaults it loads and
 * saves, the four custom-sound uploads with their file checks, and the test
 * playback buttons. The remote calls are values: the stored row comes in as a
 * parameter, the row to save and the recording to store go out as results.
 */
module Settings {
  import opened Wrappers
  import opened JsText
  import opened JsNumber
  import opened Records
  import SplashScreen

  // ---------------------------------------------------------------- uploads

  /** The fields of a chosen `File` the handlers read: `name`, `type` and `size` in bytes. */
  datatype AudioFile = AudioFile(name: string, mimeType: string, size: int)

  /** `5 * 1024 * 1024`: the largest upload accepted, in bytes. */
  const MaxUploadBytes: int := 5 * 1024 * 1024

  /** What the checks at the head of every upload handler decide. */
  datatype UploadCheck = NoFile | NotAudio | TooLarge | Accepted

  /** No file chosen, then a type not starting with `audio/`, then a size above the limit. */
  function CheckUpload(file: Option<AudioFile>): (r: UploadCheck)
    ensures r == NoFile <==> file.None?
    ensures r == NotAudio <==> file.Some? && !StartsWith(file.value.mimeType, "audio/")
    ensures r == TooLarge <==> file.Some? && StartsWith(file.value.mimeType, "audio/") && file.value.size > MaxUploadBytes
    ensures r == Accepted <==> file.Some? && StartsWith(file.value.mimeType, "audio/") && file.value.size <= MaxUploadBytes
  {
    if file.None? then NoFile
    else if !StartsWith(file.value.mimeType, "audio/") then NotAudio
    else if file.value.size > 5 * 1024 * 1024 then TooLarge
    else Accepted
  }

  /** The limit is inclusive: exactly 5242880 bytes is accepted, one byte more is refused. */
  lemma UploadLimitInclusive(name: string, mimeType: string)
    requires StartsWith(mimeType, "audio/")
    ensures CheckUpload(Some(AudioFile(name, mimeType, 5242880))) == Accepted
    ensures CheckUpload(Some(AudioFile(name, mimeType, 5242881))) == TooLarge
  {
  }

  /** The type is checked first: a file that is not audio is refused as such, whatever its size. */
  lemma TypeCheckedBeforeSize(file: AudioFile)
    requires !StartsWith(file.mimeType, "audio/")
    ensures CheckUpload(Some(file)) == NotAudio
    ensures file.size > MaxUploadBytes ==> CheckUpload(Some(file)) != TooLarge
  {
  }

  /** The recording `saveCustomAudio` stores for an accepted alarm upload. */
  datatype StoredAudio = StoredAudio(fileName: string, fileUrl: string, fileSize: int, mimeType: string)

  // ---------------------------------------------------------------- sounds

  /** One custom sound's state: `useCustom…`, `custom…Url`, `custom…Name`, `test…Playing`. */
  datatype SoundChoice = SoundChoice(useCustom: bool, url: string, name: string, testPlaying: bool)

  /** Nothing uploaded, nothing selected, nothing playing: the initial state of every sound. */
  const NoCustomSound: SoundChoice := SoundChoice(false, "", "", false)

  /** The name shown for a recording that was loaded from a stored row rather than uploaded now. */
  const UploadedName: string := "Custom sound uploaded"

  /**
   * The four sounds of the page. The alarm card shows no file name, so the
   * alarm's `name` is never written.
   */
  datatype Sounds = Sounds(alarm: SoundChoice, typewriter: SoundChoice, paragraph: SoundChoice, targetWpm: SoundChoice) {

    function Get(slot: AudioSlot): SoundChoice {
      match slot
      case AlarmSound => alarm
      case TypewriterSound => typewriter
      case ParagraphSound => paragraph
      case TargetWpmSound => targetWpm
    }

    /** The sounds with `slot` replaced by `c`. */
    function Set(slot: AudioSlot, c: SoundChoice): (r: Sounds)
      ensures r.Get(slot) == c
      ensures forall other :: other != slot ==> r.Get(other) == Get(other)
    {
      match slot
      case AlarmSound => this.(alarm := c)
      case TypewriterSound => this.(typewriter := c)
      case ParagraphSound => this.(paragraph := c)
      case TargetWpmSound => this.(targetWpm := c)
    }
  }

  const InitialSounds: Sounds := Sounds(NoCustomSound, NoCustomSound, NoCustomSound, NoCustomSound)

  /**
   * An accepted upload of `file`, read as the data URL `dataUrl`: the recording
   * is selected, and except for the alarm the file's name is shown.
   */
  function AfterUpload(slot: AudioSlot, c: SoundChoice, file: AudioFile, dataUrl: string): (r: SoundChoice)
    ensures r.useCustom && r.url == dataUrl && r.testPlaying == c.testPlaying
    ensures slot == AlarmSound ==> r.name == c.name
    ensures slot != AlarmSound ==> r.name == file.name
  {
    if slot == AlarmSound then c.(url := dataUrl, useCustom := true)
    else c.(url := dataUrl, name := file.name, useCustom := true)
  }

  /** What a test button asks of the page's `Audio` element. */
  datatype TestAction = StopPlayback | StartPlayback(url: string) | AskForUpload

  /**
   * `handleTest…Audio`: a playing test stops; otherwise, with a recording it
   * starts, and without one the user is asked to upload and nothing changes.
   */
  function TestToggle(c: SoundChoice): (r: (SoundChoice, TestAction))
    ensures c.testPlaying ==> !r.0.testPlaying && r.1 == StopPlayback
    ensures !c.testPlaying && c.url == "" ==> !r.0.testPlaying && r.1 == AskForUpload
    ensures !c.testPlaying && c.url != "" ==> r.0.testPlaying && r.1 == StartPlayback(c.url)
    ensures r.0.(testPlaying := c.testPlaying) == c
  {
    if c.testPlaying then (c.(testPlaying := false), StopPlayback)
    else if c.url == "" then (c, AskForUpload)
    else (c.(testPlaying := true), StartPlayback(c.url))
  }

  /** With a recording present, pressing the test button twice returns to where it started. */
  lemma TestToggleTwice(c: SoundChoice)
    requires c.url != ""
    ensures TestToggle(TestToggle(c).0).0 == c
    ensures TestToggle(TestToggle(c).0).1 != TestToggle(c).1
  {
  }

  // ---------------------------------------------------------------- defaults

  /** The session defaults and display options; the time goal is edited in minutes. */
  datatype Defaults = Defaults(
    wordGoal: int,
    timeGoalMinutes: int,
    minimumWpm: int,
    noBackspaceMode: bool,
    targetWpm: int,
    fullscreenEnabled: bool)

  const InitialDefaults: Defaults := Defaults(500, 30, 30, false, 60, true)

  /** The number inputs of the page, each set to `parseInt(value) || 0`. */
  datatype NumberField = WordGoalField | TimeGoalField | MinimumWpmField | TargetWpmField

  /** The defaults with one number input set to `v`. */
  function WithNumber(d: Defaults, field: NumberField, v: int): (r: Defaults)
    ensures field == WordGoalField ==> r == d.(wordGoal := v)
    ensures field == TimeGoalField ==> r == d.(timeGoalMinutes := v)
    ensures field == MinimumWpmField ==> r == d.(minimumWpm := v)
    ensures field == TargetWpmField ==> r == d.(targetWpm := v)
  {
    match field
    case WordGoalField => d.(wordGoal := v)
    case TimeGoalField => d.(timeGoalMinutes := v)
    case MinimumWpmField => d.(minimumWpm := v)
    case TargetWpmField => d.(targetWpm := v)
  }

  /** The defaults `loadSettings` shows for a stored row: whole minutes, and the `??` fall-backs. */
  function LoadedDefaults(s: UserSettings): (d: Defaults)
    ensures d.wordGoal == s.defaultWordGoal && d.minimumWpm == s.defaultMinimumWpm
    ensures d.noBackspaceMode == s.noBackspaceMode
    ensures d.timeGoalMinutes * 60 <= s.defaultTimeGoalSeconds < d.timeGoalMinutes * 60 + 60
    ensures s.targetWpm.None? ==> d.targetWpm == 60
    ensures s.targetWpm.Some? ==> d.targetWpm == s.targetWpm.value
    ensures d.fullscreenEnabled <==> s.fullscreenEnabled != Some(false)
  {
    Defaults(s.defaultWordGoal, FloorDiv(s.defaultTimeGoalSeconds, 60), s.defaultMinimumWpm,
             s.noBackspaceMode, s.targetWpm.GetOr(60), s.fullscreenEnabled.GetOr(true))
  }

  /** A stored row that names a recording for `slot` (`if (settings.custom_…_url)`); the alarm has no name. */
  predicate NamesRecording(s: UserSettings, slot: AudioSlot) {
    slot != AlarmSound && SlotUrl(s, slot) != ""
  }

  /** One sound after `loadSettings`: the row's choice and recording, and the uploaded-name label. */
  function LoadedSound(s: UserSettings, slot: AudioSlot, before: SoundChoice): (c: SoundChoice)
    ensures c.useCustom == SlotEnabled(s, slot) && c.url == SlotUrl(s, slot)
    ensures NamesRecording(s, slot) ==> c.name == UploadedName
    ensures !NamesRecording(s, slot) ==> c.name == before.name
    ensures c.testPlaying == before.testPlaying
  {
    var c := before.(useCustom := SlotEnabled(s, slot), url := SlotUrl(s, slot));
    if NamesRecording(s, slot) then c.(name := UploadedName) else c
  }

  /** The four sounds after `loadSettings`. */
  function LoadedSounds(s: UserSettings, before: Sounds): (r: Sounds)
    ensures forall slot :: r.Get(slot) == LoadedSound(s, slot, before.Get(slot))
  {
    Sounds(LoadedSound(s, AlarmSound, before.alarm), LoadedSound(s, TypewriterSound, before.typewriter),
           LoadedSound(s, ParagraphSound, before.paragraph), LoadedSound(s, TargetWpmSound, before.targetWpm))
  }

  /**
   * A row with every optional field missing loads with the typewriter sound on,
   * no custom typewriter, paragraph or target sound, empty recordings, a target
   * of 60 and fullscreen on.
   */
  lemma MissingFieldsFallBack(s: UserSettings, before: Sounds, slot: AudioSlot)
    requires s.typewriterSoundEnabled.None? && s.useCustomTypewriter.None? && s.customTypewriterUrl.None?
    requires s.useCustomParagraphSound.None? && s.customParagraphSoundUrl.None?
    requires s.targetWpm.None? && s.fullscreenEnabled.None?
    requires s.useCustomTargetWpmSound.None? && s.customTargetWpmSoundUrl.None?
    requires slot != AlarmSound
    ensures s.typewriterSoundEnabled.GetOr(true)
    ensures LoadedDefaults(s).targetWpm == 60 && LoadedDefaults(s).fullscreenEnabled
    ensures var c := LoadedSounds(s, before).Get(slot); !c.useCustom && c.url == "" && c == before.Get(slot).(useCustom := false, url := "")
  {
  }

  /** The row `handleSave` sends: the defaults with the time goal in seconds, and every sound's choice. */
  function SavedRow(d: Defaults, typewriterSoundEnabled: bool, sounds: Sounds): (row: UserSettings)
    ensures row.defaultTimeGoalSeconds == d.timeGoalMinutes * 60
    ensures row.defaultWordGoal == d.wordGoal && row.defaultMinimumWpm == d.minimumWpm
    ensures row.noBackspaceMode == d.noBackspaceMode
    ensures row.targetWpm == Some(d.targetWpm) && row.fullscreenEnabled == Some(d.fullscreenEnabled)
    ensures row.typewriterSoundEnabled == Some(typewriterSoundEnabled)
    ensures forall slot :: SlotEnabled(row, slot) == sounds.Get(slot).useCustom && SlotUrl(row, slot) == sounds.Get(slot).url
  {
    UserSettings(d.wordGoal, d.timeGoalMinutes * 60, d.minimumWpm, d.noBackspaceMode,
                 sounds.alarm.url, sounds.alarm.useCustom,
                 Some(typewriterSoundEnabled), Some(sounds.typewriter.useCustom), Some(sounds.typewriter.url),
                 Some(sounds.paragraph.useCustom), Some(sounds.paragraph.url),
                 Some(d.targetWpm), Some(d.fullscreenEnabled),
                 Some(sounds.targetWpm.useCustom), Some(sounds.targetWpm.url))
  }

  /** Whole minutes survive the trip to seconds and back. */
  lemma MinutesRoundTrip(minutes: int)
    ensures FloorDiv(minutes * 60, 60) == minutes
  {
    var d := FloorDiv(minutes * 60, 60) - minutes;
    assert d * 60 <= 0 < d * 60 + 60;
  }

  /**
   * Saving and loading again gives back the same defaults, the same typewriter
   * switch, and for every sound the same choice and recording.
   */
  lemma SaveThenLoad(d: Defaults, typewriterSoundEnabled: bool, sounds: Sounds, before: Sounds, slot: AudioSlot)
    ensures LoadedDefaults(SavedRow(d, typewriterSoundEnabled, sounds)) == d
    ensures SavedRow(d, typewriterSoundEnabled, sounds).typewriterSoundEnabled.GetOr(true) == typewriterSoundEnabled
    ensures LoadedSounds(SavedRow(d, typewriterSoundEnabled, sounds), before).Get(slot).useCustom == sounds.Get(slot).useCustom
    ensures LoadedSounds(SavedRow(d, typewriterSoundEnabled, sounds), before).Get(slot).url == sounds.Get(slot).url
  {
    MinutesRoundTrip(d.timeGoalMinutes);
  }

  /** The callbacks `handleSave` makes after a successful save, so the page's owner applies the new choices. */
  datatype Notice = SoundChange(slot: AudioSlot, url: string, enabled: bool) | TypewriterChange(enabled: bool)

  /** `onAudioChange`, `onTypewriterChange`, `onCustomTypewriterChange`, `onParagraphSoundChange`, `onTargetWpmSoundChange`. */
  function SaveNotices(typewriterSoundEnabled: bool, sounds: Sounds): (r: seq<Notice>)
    ensures |r| == 5 && r[1] == TypewriterChange(typewriterSoundEnabled)
    ensures forall slot :: SoundChange(slot, sounds.Get(slot).url, sounds.Get(slot).useCustom) in r
  {
    [SoundChange(AlarmSound, sounds.alarm.url, sounds.alarm.useCustom),
     TypewriterChange(typewriterSoundEnabled),
     SoundChange(TypewriterSound, sounds.typewriter.url, sounds.typewriter.useCustom),
     SoundChange(ParagraphSound, sounds.paragraph.url, sounds.paragraph.useCustom),
     SoundChange(TargetWpmSound, sounds.targetWpm.url, sounds.targetWpm.useCustom)]
  }

  /** What the owner is told about each sound is what was saved for it. */
  lemma NoticesMatchSavedRow(d: Defaults, typewriterSoundEnabled: bool, sounds: Sounds, slot: AudioSlot)
    ensures var row := SavedRow(d, typewriterSoundEnabled, sounds);
      SoundChange(slot, SlotUrl(row, slot), SlotEnabled(row, slot)) in SaveNotices(typewriterSoundEnabled, sounds)
      && TypewriterChange(row.typewriterSoundEnabled.GetOr(true)) in SaveNotices(typewriterSoundEnabled, sounds)
  {
    var row := SavedRow(d, typewriterSoundEnabled, sounds);
    assert SlotUrl(row, slot) == sounds.Get(slot).url && SlotEnabled(row, slot) == sounds.Get(slot).useCustom;
    assert SaveNotices(typewriterSoundEnabled, sounds)[1] == TypewriterChange(typewriterSoundEnabled);
  }

  // ---------------------------------------------------------------- the page

  /** The page's state. */
  class SettingsPanel {
    var defaults: Defaults
    var typewriterSoundEnabled: bool
    var sounds: Sounds
    var loading: bool
    var saved: bool

    /** The `useState` initial values. */
    constructor ()
      ensures defaults == InitialDefaults && typewriterSoundEnabled && sounds == InitialSounds
      ensures loading && !saved
    {
      defaults := InitialDefaults;
      typewriterSoundEnabled := true;
      sounds := InitialSounds;
      loading := true;
      saved := false;
    }

    /** `loadSettings`, given what `getUserSettings` answered: `None` for no row or a failed fetch. */
    method LoadSettings(stored: Option<UserSettings>)
      modifies this
      ensures !loading && saved == old(saved)
      ensures stored.None? ==> defaults == old(defaults) && typewriterSoundEnabled == old(typewriterSoundEnabled) && sounds == old(sounds)
      ensures stored.Some? ==> defaults == LoadedDefaults(stored.value) && sounds == LoadedSounds(stored.value, old(sounds))
      ensures stored.Some? ==> typewriterSoundEnabled == stored.value.typewriterSoundEnabled.GetOr(true)
    {
      if stored.Some? {
        var s := stored.value;
        var before := sounds;
        defaults := Defaults(s.defaultWordGoal, FloorDiv(s.defaultTimeGoalSeconds, 60), s.defaultMinimumWpm,
                             s.noBackspaceMode, s.targetWpm.GetOr(60), s.fullscreenEnabled.GetOr(true));
        assert defaults == LoadedDefaults(s);
        var alarm := before.alarm.(useCustom := s.useCustomAudio, url := s.customAudioUrl);
        assert alarm == LoadedSound(s, AlarmSound, before.alarm);
        typewriterSoundEnabled := s.typewriterSoundEnabled.GetOr(true);
        var typewriter := before.typewriter.(useCustom := s.useCustomTypewriter.GetOr(false), url := s.customTypewriterUrl.GetOr(""));
        if s.customTypewriterUrl.Some? && s.customTypewriterUrl.value != "" {
          typewriter := typewriter.(name := UploadedName);
        }
        assert typewriter == LoadedSound(s, TypewriterSound, before.typewriter);
        var paragraph := before.paragraph.(useCustom := s.useCustomParagraphSound.GetOr(false), url := s.customParagraphSoundUrl.GetOr(""));
        if s.customParagraphSoundUrl.Some? && s.customParagraphSoundUrl.value != "" {
          paragraph := paragraph.(name := UploadedName);
        }
        assert paragraph == LoadedSound(s, ParagraphSound, before.paragraph);
        var target := before.targetWpm.(useCustom := s.useCustomTargetWpmSound.GetOr(false), url := s.customTargetWpmSoundUrl.GetOr(""));
        if s.customTargetWpmSoundUrl.Some? && s.customTargetWpmSoundUrl.value != "" {
          target := target.(name := UploadedName);
        }
        assert target == LoadedSound(s, TargetWpmSound, before.targetWpm);
        sounds := Sounds(alarm, typewriter, paragraph, target);
        assert sounds == LoadedSounds(s, before);
      }
      loading := false;
    }

    /** A number input's `onChange`: `parseInt(value) || 0`. */
    method SetNumber(field: NumberField, input: string)
      modifies this
      ensures defaults == WithNumber(old(defaults), field, SplashScreen.FieldValue(input))
      ensures unchanged(this`typewriterSoundEnabled, this`sounds, this`loading, this`saved)
    {
      defaults := WithNumber(defaults, field, SplashScreen.FieldValue(input));
    }

    /**
     * `handleSave`, the remote `saveUserSettings` failing when `saveFails`: the
     * row sent, and on success the owner's callbacks and the "Saved" flag.
     */
    method HandleSave(saveFails: bool) returns (row: UserSettings, notices: seq<Notice>)
      modifies this
      ensures row == SavedRow(defaults, typewriterSoundEnabled, sounds)
      ensures saveFails ==> notices == [] && saved == old(saved)
      ensures !saveFails ==> notices == SaveNotices(typewriterSoundEnabled, sounds) && saved
      ensures unchanged(this`defaults, this`typewriterSoundEnabled, this`sounds, this`loading)
    {
      row := UserSettings(defaults.wordGoal, defaults.timeGoalMinutes * 60, defaults.minimumWpm, defaults.noBackspaceMode,
                          sounds.alarm.url, sounds.alarm.useCustom,
                          Some(typewriterSoundEnabled), Some(sounds.typewriter.useCustom), Some(sounds.typewriter.url),
                          Some(sounds.paragraph.useCustom), Some(sounds.paragraph.url),
                          Some(defaults.targetWpm), Some(defaults.fullscreenEnabled),
                          Some(sounds.targetWpm.useCustom), Some(sounds.targetWpm.url));
      notices := [];
      if !saveFails {
        notices := SaveNotices(typewriterSoundEnabled, sounds);
        saved := true;
      }
    }

    /** The `setTimeout` two seconds after a save: the "Saved" flag goes away. */
    method SavedTimeout()
      modifies this
      ensures !saved
      ensures unchanged(this`defaults, this`typewriterSoundEnabled, this`sounds, this`loading)
    {
      saved := false;
    }

    /**
     * The upload handler for `slot`, the `FileReader` answering with `dataUrl`.
     * For the alarm, the recording is also handed to `saveCustomAudio` first.
     */
    method UploadFile(slot: AudioSlot, file: Option<AudioFile>, dataUrl: string) returns (check: UploadCheck, stored: Option<StoredAudio>)
      modifies this
      ensures check == CheckUpload(file)
      ensures check != Accepted ==> sounds == old(sounds) && stored.None?
      ensures check == Accepted ==> sounds == old(sounds).Set(slot, AfterUpload(slot, old(sounds).Get(slot), file.value, dataUrl))
      ensures check == Accepted && slot == AlarmSound ==>
        stored == Some(StoredAudio(file.value.name, dataUrl, file.value.size, file.value.mimeType))
      ensures slot != AlarmSound ==> stored.None?
      ensures unchanged(this`defaults, this`typewriterSoundEnabled, this`loading, this`saved)
    {
      stored := None;
      check := CheckUpload(file);
      if check != Accepted {
        return;
      }
      var f := file.value;
      var c := sounds.Get(slot);
      if slot == AlarmSound {
        stored := Some(StoredAudio(f.name, dataUrl, f.size, f.mimeType));
        c := c.(url := dataUrl, useCustom := true);
      } else {
        c := c.(url := dataUrl, name := f.name, useCustom := true);
      }
      sounds := sounds.Set(slot, c);
    }

    /** The test button for `slot`. */
    method TestAudio(slot: AudioSlot) returns (action: TestAction)
      modifies this
      ensures sounds == old(sounds).Set(slot, TestToggle(old(sounds).Get(slot)).0)
      ensures action == TestToggle(old(sounds).Get(slot)).1
      ensures unchanged(this`defaults, this`typewriterSoundEnabled, this`loading, this`saved)
    {
      var c := sounds.Get(slot);
      if c.testPlaying {
        action := StopPlayback;
        sounds := sounds.Set(slot, c.(testPlaying := false));
      } else if c.url == "" {
        action := AskForUpload;
      } else {
        action := StartPlayback(c.url);
        sounds := sounds.Set(slot, c.(testPlaying := true));
      }
    }

    /** The `ended` listener of a test recording. */
    method PlaybackEnded(slot: AudioSlot)
      modifies this
      ensures sounds == old(sounds).Set(slot, old(sounds).Get(slot).(testPlaying := false))
      ensures unchanged(this`defaults, this`typewriterSoundEnabled, this`loading, this`saved)
    {
      sounds := sounds.Set(slot, sounds.Get(slot).(testPlaying := false));
    }
  }
}
