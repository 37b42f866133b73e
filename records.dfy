/**
 * The stored records of src/lib/supabase.ts: a finished writing session and the
 * user's settings row. The client calls that store and fetch them are not part of
 * this model; the components receive or produce these values.
 */
module Records {
  import opened Wrappers

  /** `WritingSession`; `createdAt` is filled in by the database and absent on a new session. */
  datatype WritingSession = WritingSession(
    wordCount: int,
    durationSeconds: int,
    averageWpm: int,
    wordGoal: int,
    timeGoalSeconds: int,
    minimumWpm: int,
    wordGoalAchieved: bool,
    timeGoalAchieved: bool,
    noBackspaceMode: bool,
    createdAt: Option<string>)

  /**
   * The settings row as the components read it. The fields they read through a
   * `??` default may be missing from a stored row and are `Option`s; the others
   * are required by the record type.
   */
  datatype UserSettings = UserSettings(
    defaultWordGoal: int,
    defaultTimeGoalSeconds: int,
    defaultMinimumWpm: int,
    noBackspaceMode: bool,
    customAudioUrl: string,
    useCustomAudio: bool,
    typewriterSoundEnabled: Option<bool>,
    useCustomTypewriter: Option<bool>,
    customTypewriterUrl: Option<string>,
    useCustomParagraphSound: Option<bool>,
    customParagraphSoundUrl: Option<string>,
    targetWpm: Option<int>,
    fullscreenEnabled: Option<bool>,
    useCustomTargetWpmSound: Option<bool>,
    customTargetWpmSoundUrl: Option<string>)

  /** The four sounds a custom recording can replace. */
  datatype AudioSlot = AlarmSound | TypewriterSound | ParagraphSound | TargetWpmSound

  /** Whether a stored row selects its custom recording for `slot` (`use_custom_…`, missing is false). */
  function SlotEnabled(s: UserSettings, slot: AudioSlot): bool {
    match slot
    case AlarmSound => s.useCustomAudio
    case TypewriterSound => s.useCustomTypewriter.GetOr(false)
    case ParagraphSound => s.useCustomParagraphSound.GetOr(false)
    case TargetWpmSound => s.useCustomTargetWpmSound.GetOr(false)
  }

  /** The stored recording for `slot` (`custom_…_url`, missing is empty). */
  function SlotUrl(s: UserSettings, slot: AudioSlot): string {
    match slot
    case AlarmSound => s.customAudioUrl
    case TypewriterSound => s.customTypewriterUrl.GetOr("")
    case ParagraphSound => s.customParagraphSoundUrl.GetOr("")
    case TargetWpmSound => s.customTargetWpmSoundUrl.GetOr("")
  }
}
