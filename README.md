# writing-horror, modelled in Dafny

writing-horror is a browser writing app that punishes slow writing. The writer
picks a word goal, a time goal and a minimum typing rate on the splash screen,
then writes in a distraction-free text area. A rolling words-per-minute
estimate feeds a pacing rule. After three seconds below the minimum, an alarm
sounds and keeps sounding until the rate recovers. Reaching the target rate
plays a reward sound. Reaching the word goal ends the session with a victory
modal. Finished sessions are saved, listed in a history screen and summarised
there. A settings page stores the defaults and up to four custom recordings.

This project models the logic of those screens:

- `WpmCalculator`: the sliding-window rate estimator and the word counter,
  including the `TypeError` that `calculateRollingWPM` throws when eviction empties
  a history of two or more entries (`Rate.Crash`).
- `Pacing`: one half-second tick of the alarm and target-rate rule as a pure
  function. Lemmas count, over any run of readings, how often each sound plays.
- `App`: the session controller, a class whose fields are the component's state
  and refs. Each handler and interval callback is a method, and so is the
  unmount cleanup. Its calls into the audio manager (warm-up, cleanup, sound
  setup, play and stop), `clearInterval` and `saveSession` come back as
  `Effect`s in the order the source makes them. The pass-through handlers
  listed under "## Left out" are the exception.
- `NumericInput`, `SplashScreen`, `WritingCanvas`, `TypingRhythm`, `StatsBar`,
  `VictoryModal`, `SessionHistory` and `Settings`: one module per file. Each has
  its decision logic, labels and arithmetic. `WritingCanvas`, `TypingRhythm`
  and `Settings` also have a class for the state the component updates in place.
- Shared helpers:
  - `JsNumber` models `Math.round` (ties go up), `%`, `Math.floor(a / b)`, `parseInt` and `reduce` sums.
  - `JsText` models `trim`, `padStart` and `toString`.
  - `Records` holds the stored session and settings rows.
  - `Wrappers` holds `Option`.

Some modelling choices apply throughout:

- Times are integer milliseconds. The clock reading `Date.now()` is a `now` parameter.
- Every ratio the source takes in floating point is taken exactly here, and rounded half up as `Math.round` does.
- Three behaviours of the code that differ from what the app is described as doing are modelled as the code has them:
  - The alarm starts on the sixth consecutive slow half-second tick (3 s below the minimum), not the third (`Pacing.AlarmOnSixthTick`).
  - Two entries exactly one window (10 s) apart, read at the time of the second, give a rate of 0, not 60. The older entry sits on the cutoff and is evicted (`WpmCalculator.WindowEdgeExample`).
  - The running session paces itself against the minimum and target rates from the stored settings row, and uses the stored no-backspace flag. It does not use the values typed on the splash screen (`App.WritingApp.CheckWarningState`, `App.WritingApp.HandleGoalReached`).

## Model

| member | source | states |
|---|---|---|
| JsNumber.RoundHalfUp | src/App.tsx:223 | `Math.round(p / q)`: the unique integer within half of the ratio, ties upward |
| JsNumber.RoundHalfUpUnique | src/App.tsx:223 | only one integer meets the rounding bounds, so any integer meeting them is the rounded value |
| JsNumber.RoundHalfUpMonotone | src/components/SessionHistory.tsx:48-50 | rounding never decreases as the numerator grows |
| JsNumber.RoundHalfUpExact | src/components/SessionHistory.tsx:48-50 | a ratio that is an integer rounds to that integer |
| JsNumber.Rem | src/components/StatsBar.tsx:24 | JS `%` with a positive divisor: the remainder carries the dividend's sign and is smaller than the divisor |
| JsNumber.FloorDiv | src/components/StatsBar.tsx:23 | `Math.floor(a / b)`: the greatest integer whose product with `b` does not exceed `a` |
| JsNumber.ParseInt10OfNatToString | src/components/SplashScreen.tsx:86 | `parseInt` reads back what `toString` writes for a non-negative integer |
| JsNumber.SumConcat | src/components/SessionHistory.tsx:46-47 | the `reduce` sum over two lists joined is the sum of the two sums |
| JsNumber.SumBounds | src/components/SessionHistory.tsx:48-50 | terms between `lo` and `hi` put the sum between `n·lo` and `n·hi` |
| JsText.TrimStart | src/utils/wpmCalculator.ts:59 | leading white space removed: the result is a suffix, everything dropped is white space, and it does not start with white space |
| JsText.TrimEnd | src/utils/wpmCalculator.ts:59 | trailing white space removed: a prefix, everything dropped is white space, and it does not end with white space |
| JsText.TrimEmptyIffAllSpace | src/utils/wpmCalculator.ts:59-61 | `!text.trim()` holds exactly when the text is all white space |
| JsText.NatToString | src/components/StatsBar.tsx:25 | the decimal numeral of `n`: digits only, denoting `n`, one digit exactly below 10, no leading zero |
| JsText.PadStart | src/components/StatsBar.tsx:25 | `padStart`: the original string at the end, fill characters before it, and width at least `width` |
| WpmCalculator.Evict | src/utils/wpmCalculator.ts:16-21 | `cleanOldEntries` keeps only entries newer than `now - 10000` |
| WpmCalculator.EvictMembers | src/utils/wpmCalculator.ts:16-21 | an entry survives eviction exactly when it was present and is newer than the cutoff |
| WpmCalculator.EvictConcat | src/utils/wpmCalculator.ts:16-21 | eviction filters entry by entry, so survivors keep their order |
| WpmCalculator.EvictLater | src/utils/wpmCalculator.ts:16-21 | evicting at `t1` and then at a later `t2` is the same as evicting once at `t2` |
| WpmCalculator.EvictAllOld | src/utils/wpmCalculator.ts:16-21 | a history entirely at or before the cutoff is emptied |
| WpmCalculator.EvictSorted | src/utils/wpmCalculator.ts:16-21 | on a time-ordered history eviction drops a prefix and leaves it ordered |
| WpmCalculator.EvictEmptyIff | src/utils/wpmCalculator.ts:16-21 | a non-empty ordered history is emptied exactly when its newest entry is at or before the cutoff |
| WpmCalculator.WordsPerMinute | src/utils/wpmCalculator.ts:47-50 | the rounded rate `60 · words / (ms / 1000)` as bounds on the exact ratio |
| WpmCalculator.AddKeepsNewEntryLast | src/utils/wpmCalculator.ts:10-14 | after `addEntry` the new entry is the last kept one and every kept entry is inside the window |
| WpmCalculator.EntryAtCutoffDropped | src/utils/wpmCalculator.ts:19 | an entry exactly 10000 ms old is evicted, because the comparison is strict |
| WpmCalculator.AddKeepsSorted | src/utils/wpmCalculator.ts:10-14 | while the clock never runs backwards, `addEntry` keeps the history time-ordered and never in the future |
| WpmCalculator.RateOfSparse | src/utils/wpmCalculator.ts:24-26 | fewer than two entries give 0 before any eviction, and the history is kept |
| WpmCalculator.CrashIff | src/utils/wpmCalculator.ts:24-36 | on an ordered history read no earlier than its entries, the call throws exactly when it has two or more entries and even the newest is at least 10 s old |
| WpmCalculator.CrashThenZero | src/utils/wpmCalculator.ts:28-32 | the throwing call has already emptied the history, so any later call gives 0 |
| WpmCalculator.CrashExample | src/utils/wpmCalculator.ts:28-32 | two entries that both leave the window between calls make the next call throw |
| WpmCalculator.RateOfIdle | src/utils/wpmCalculator.ts:31-36 | the newest kept entry more than 5 s old gives 0 |
| WpmCalculator.RateOfZeroSpan | src/utils/wpmCalculator.ts:38-45 | kept entries sharing one timestamp give 0 |
| WpmCalculator.RateOfSlope | src/utils/wpmCalculator.ts:38-50 | otherwise the rate is the rounded slope between the oldest and newest kept entries, in words per minute, floored at 0 |
| WpmCalculator.WindowEdgeExample | src/utils/wpmCalculator.ts:16-21 | entries 10 s apart read at the second's time give 0: the first sits on the cutoff |
| WpmCalculator.InsideWindowExample | src/utils/wpmCalculator.ts:38-50 | one millisecond closer, both entries count and the rate is 60 |
| WpmCalculator.WPMCalculator.constructor | src/utils/wpmCalculator.ts:6-7 | a new estimator has an empty history |
| WpmCalculator.WPMCalculator.AddEntry | src/utils/wpmCalculator.ts:10-14 | the history becomes the old one plus the new entry, evicted at `now`; the new entry is last |
| WpmCalculator.WPMCalculator.CleanOldEntries | src/utils/wpmCalculator.ts:16-21 | the history becomes the evicted old history |
| WpmCalculator.WPMCalculator.CalculateRollingWPM | src/utils/wpmCalculator.ts:23-51 | returns the rate (or the crash) of the old history at `now` and leaves the history the call would leave |
| WpmCalculator.WPMCalculator.Reset | src/utils/wpmCalculator.ts:53-55 | the history is emptied, so the next rate is 0 whatever the time |
| WpmCalculator.Split | src/utils/wpmCalculator.ts:62 | `split(/\s+/)` yields at least one piece and no piece contains white space |
| WpmCalculator.CountWords | src/utils/wpmCalculator.ts:58-63 | `countWords` is the number of maximal runs of non-space characters, and is 0 exactly for blank text |
| WpmCalculator.WordStartsOfSpaces | src/utils/wpmCalculator.ts:58-63 | all-white-space text holds no word |
| WpmCalculator.WordStartsSkipSpaces | src/utils/wpmCalculator.ts:59 | leading white space starts no word |
| WpmCalculator.WordStartsTrailingSpaces | src/utils/wpmCalculator.ts:59 | trailing white space starts no word |
| WpmCalculator.SplitCount | src/utils/wpmCalculator.ts:62 | a string not ending in white space splits into one more piece than the words begun after its first character |
| WpmCalculator.TrimStartKeepsLast | src/utils/wpmCalculator.ts:62 | trimming the front keeps a last character that is not white space |
| WpmCalculator.WordStartsAtFront | src/utils/wpmCalculator.ts:62 | a word starts at the first character exactly when it is not white space |
| WpmCalculator.WordsOfTrim | src/utils/wpmCalculator.ts:62 | trimming does not change the number of words |
| WpmCalculator.CountWordsIsWords | src/utils/wpmCalculator.ts:58-63 | the `trim`/`split` count equals the reference count of words |
| NumericInput.SanitizeNumericInput | src/utils/numericInput.ts:1-25 | a blank or unreadable field gives `min`; otherwise the reading clamped to `min` and then `max` |
| NumericInput.SanitizeBounds | src/utils/numericInput.ts:8-24 | the sanitised value is inside `[min, max]` when that range is non-empty, is the reading itself when that lies inside, the nearer bound otherwise, and `max` when `max < min` |
| NumericInput.Clamp | src/utils/numericInput.ts:16-24 | the two bound checks, in order, meet the sanitising promise |
| NumericInput.EarlyReturnUnreadable | src/utils/numericInput.ts:4-6 | the early return on `""` or `"-"` agrees with `parseInt` reading NaN there |
| NumericInput.SanitizeIdempotent | src/utils/numericInput.ts:1-25 | with a non-empty range, sanitising the written-back value gives the same value |
| NumericInput.ReadingOfNumeral | src/utils/numericInput.ts:2-12 | a field holding a numeral reads as its value |
| NumericInput.StripLeadingZeros | src/utils/numericInput.ts:38 | the leading zeros removed: a suffix not starting with `0`, with only zeros dropped |
| NumericInput.HandleNumericInput | src/utils/numericInput.ts:27-47 | `""` and `"-"` give `null` |
| NumericInput.HandleIsParseInt | src/utils/numericInput.ts:27-47 | on a field not beginning with `0`, `handleNumericInput` is plain `parseInt` |
| NumericInput.StripKeepsValue | src/utils/numericInput.ts:38 | removing leading zeros keeps a digit string's value |
| NumericInput.HandleDigits | src/utils/numericInput.ts:27-47 | a field of digits, with or without leading zeros, reads as its decimal value |
| NumericInput.StrippedDigits | src/utils/numericInput.ts:38-40 | what is left of a digit field after stripping parses to its value |
| NumericInput.LeadingZeroExamples | src/utils/numericInput.ts:38-40 | `"000"` gives 0 and `"007"` gives 7 |
| NumericInput.ZeroBeforeSign | src/utils/numericInput.ts:38-44 | zeros before a minus sign are stripped, so `"0-5"` reads as -5 |
| NumericInput.ParseZeroBeforeSign | src/utils/numericInput.ts:38-44 | plain `parseInt` reads the same field as 0, so the two readings differ |
| NumericInput.StripZerosThen | src/utils/numericInput.ts:38 | stripping takes exactly the zeros in front of a rest that does not start with `0` |
| NumericInput.ZerosValue | src/utils/numericInput.ts:38-40 | a run of zeros denotes 0 |
| SplashScreen.FieldValue | src/components/SplashScreen.tsx:86 | `parseInt(value) \|\| 0`: the reading, or 0 when NaN |
| SplashScreen.HandleStart | src/components/SplashScreen.tsx:45-57 | no session exactly when a goal or the minimum is below 1; otherwise a valid configuration with the minutes turned into seconds and the other fields copied |
| SplashScreen.LoadDefaults | src/components/SplashScreen.tsx:29-43 | without a row the form is kept; a row replaces the fields, the time goal in whole minutes rounded down |
| SplashScreen.LoadWholeMinutes | src/components/SplashScreen.tsx:34 | a stored whole number of minutes is shown as exactly those minutes |
| SplashScreen.StartFromStoredConfig | src/components/SplashScreen.tsx:29-57 | loading a valid stored configuration and starting yields that same configuration |
| SplashScreen.UnreadableFieldRefused | src/components/SplashScreen.tsx:45-57 | a field `parseInt` cannot read stores 0, and the form then refuses to start |
| WritingCanvas.KeyDownOutcome | src/components/WritingCanvas.tsx:20-37 | a key is cancelled exactly for Backspace in no-backspace mode, or a clipboard shortcut before the goal; it marks a keypress exactly when it is not cancelled and is an unmodified typing key |
| WritingCanvas.BackspaceBlocked | src/components/WritingCanvas.tsx:21-24 | in no-backspace mode Backspace is always cancelled; otherwise it is cancelled only as a clipboard shortcut |
| WritingCanvas.ShortcutsFreedByGoal | src/components/WritingCanvas.tsx:26-31 | clipboard shortcuts are cancelled before the goal and passed through after it |
| WritingCanvas.ShiftedShortcutPassesKeyGuard | src/components/WritingCanvas.tsx:26-31 | an upper-case `V` gets past the key guard but the paste event itself is still cancelled |
| WritingCanvas.ClipboardCancelled | src/components/WritingCanvas.tsx:49-65 | paste, copy and cut are cancelled exactly while the goal is not reached |
| WritingCanvas.FlagMeaning | src/components/WritingCanvas.tsx:12-47 | after any event sequence the keypress flag is set exactly when a marking key or a `beforeinput` came after the last change, or there was no change and it was set to begin with |
| WritingCanvas.ChangeForgets | src/components/WritingCanvas.tsx:43-47 | a change event resets what the flag remembers |
| WritingCanvas.OtherEventExtends | src/components/WritingCanvas.tsx:20-41 | an event other than a change extends what the flag remembers |
| WritingCanvas.SecondChangeIsNotKeypress | src/components/WritingCanvas.tsx:43-47 | right after a change the flag is clear, so a second change without typing is not a keypress |
| WritingCanvas.Canvas.constructor | src/components/WritingCanvas.tsx:12 | the flag starts clear |
| WritingCanvas.Canvas.HandleKeyDown | src/components/WritingCanvas.tsx:20-37 | cancels exactly as `KeyDownOutcome` says and updates the flag by the reference rule |
| WritingCanvas.Canvas.HandleBeforeInput | src/components/WritingCanvas.tsx:39-41 | sets the flag |
| WritingCanvas.Canvas.HandleChange | src/components/WritingCanvas.tsx:43-47 | passes on the flag as the keypress bit, then clears it |
| TypingRhythm.BarColorOf | src/components/TypingRhythm.tsx:11-17 | gray exactly for 0; red exactly below the minimum; orange exactly below the midpoint of minimum and target; yellow exactly below the target; green otherwise |
| TypingRhythm.MidpointExact | src/components/TypingRhythm.tsx:14 | the source's `min + (target - min) * 0.5` test equals the integer test `2·wpm < min + target` |
| TypingRhythm.BarColorMonotone | src/components/TypingRhythm.tsx:11-17 | for a positive rate, a faster rate never gets a worse colour |
| TypingRhythm.LastN | src/components/TypingRhythm.tsx:44 | `slice(-n)`: the last `min(n, length)` samples |
| TypingRhythm.LastNAppend | src/components/TypingRhythm.tsx:42-45 | trimming after every append is the same as trimming once at the end |
| TypingRhythm.DistinctExamples | src/components/TypingRhythm.tsx:39-47 | a repeated reading adds no sample; a new one does |
| TypingRhythm.RhythmBuffer.constructor | src/components/TypingRhythm.tsx:36-37 | no samples; the previous reading is -1 |
| TypingRhythm.RhythmBuffer.Observe | src/components/TypingRhythm.tsx:39-47 | a repeated reading keeps the samples; a new one is appended and the last 30 kept; at most 30 samples ever |
| TypingRhythm.Padded | src/components/TypingRhythm.tsx:59-61 | fewer than 30 samples are padded in front with -1 to exactly 30 bars; more are kept as they are |
| TypingRhythm.Positives | src/components/TypingRhythm.tsx:20 | every positive sample is kept, as many times as it occurs, and nothing else: same members and same multiplicities as the positives of the input |
| TypingRhythm.PositivesConcat | src/components/TypingRhythm.tsx:20 | the filter distributes over concatenation, so the kept samples stay in their order |
| TypingRhythm.SumOfPositives | src/components/TypingRhythm.tsx:23-24 | a non-empty list of positive samples has a positive sum |
| TypingRhythm.PausedUnreachable | src/components/TypingRhythm.tsx:19-33 | `PAUSED` is never shown, and `WARMING UP` is shown exactly when the last 12 samples have fewer than 4 positive ones |
| TypingRhythm.FewSamplesWarmUp | src/components/TypingRhythm.tsx:21 | fewer than 4 samples always show `WARMING UP` |
| StatsBar.FormatTime | src/components/StatsBar.tsx:22-26 | the clock label of a non-negative time: minutes, a colon and the seconds padded to two digits |
| StatsBar.SecondsFieldTwoDigits | src/components/StatsBar.tsx:24-25 | the padded seconds field is two digits denoting `s % 60` |
| StatsBar.FormatTimeFields | src/components/StatsBar.tsx:22-26 | the label is the minutes field, then the colon and the seconds field |
| StatsBar.FormatTimeMinutes | src/components/StatsBar.tsx:22-26 | `parseInt` of the label gives back the whole minutes |
| StatsBar.FormatTimeSeconds | src/components/StatsBar.tsx:22-26 | the label is three characters longer than its minutes, and the part after the colon reads back as the seconds |
| StatsBar.ColonThenDigits | src/components/StatsBar.tsx:25 | in `m:f` over digit runs, `parseInt` reads `m`, and `f` follows the colon |
| StatsBar.TimeGoalReached | src/components/StatsBar.tsx:20 | the time badge shows exactly once the clock has reached the goal |
| StatsBar.BadgesOf | src/components/StatsBar.tsx:20-50 | the goal badge shows exactly when the word goal is met, and the time badge exactly when the time goal is |
| StatsBar.BadgesStay | src/components/StatsBar.tsx:36-50 | more words and a later clock never take a badge away |
| VictoryModal.TimeGoalAchieved | src/components/VictoryModal.tsx:28 | the time goal counts as met exactly when the session took no longer than the goal |
| VictoryModal.FormatTime | src/components/VictoryModal.tsx:30-34 | for a non-negative time, `"<m>m <s>s"` with whole minutes and remaining seconds |
| VictoryModal.FormatTimeIsFormatDuration | src/components/VictoryModal.tsx:30-34 | the modal's time label is the history's duration label |
| VictoryModal.GoalLineMarked | src/components/VictoryModal.tsx:71-74 | the goal line carries the check mark exactly when the time goal was met |
| VictoryModal.TimeFlagsMeetAtGoal | src/components/VictoryModal.tsx:28 | the bar's "reached" and the modal's "achieved" both hold exactly at the goal second, and at least one holds at every time |
| SessionHistory.FormatDuration | src/components/SessionHistory.tsx:40-44 | for a non-negative time, `"<m>m <s>s"` with whole minutes and remaining seconds |
| SessionHistory.FormatDurationFields | src/components/SessionHistory.tsx:40-44 | the label is the minutes field, `"m "`, the seconds field and `"s"` |
| SessionHistory.FormatDurationMinutes | src/components/SessionHistory.tsx:40-44 | `parseInt` of the label gives back the whole minutes |
| SessionHistory.FormatDurationSeconds | src/components/SessionHistory.tsx:40-44 | the part after `"m "` reads back as the remaining seconds |
| SessionHistory.SecondsFieldOf | src/components/SessionHistory.tsx:43 | in `"<m>m <n>s"`, `parseInt` from past `"m "` reads `n` |
| SessionHistory.FormatDate | src/components/SessionHistory.tsx:28-38 | a missing or empty date shows nothing; any other date shows its rendering |
| SessionHistory.ColumnOf | src/components/SessionHistory.tsx:46-50 | one numeric column of the list, one entry per session in order |
| SessionHistory.ColumnConcat | src/components/SessionHistory.tsx:46-50 | the column of two lists joined is the two columns joined |
| SessionHistory.TotalsAdditive | src/components/SessionHistory.tsx:46-47 | the total words and total time of two lists joined are the sums of their totals |
| SessionHistory.AvgWpm | src/components/SessionHistory.tsx:48-50 | 0 for no session; otherwise the mean of the sessions' average rates, rounded half up |
| SessionHistory.AvgWpmBetween | src/components/SessionHistory.tsx:48-50 | the rounded mean lies between the least and the greatest session average |
| SessionHistory.GoalsAchieved | src/components/SessionHistory.tsx:51 | the count of goal-meeting sessions never exceeds the number of sessions |
| SessionHistory.GoalsAchievedAll | src/components/SessionHistory.tsx:51 | every session is counted exactly when every session met its word goal |
| Pacing.Tick | src/App.tsx:159-190 | below minimum adds a tick; otherwise the count resets and the alarm goes off. The alarm starts exactly on the sixth slow tick while it is off, and stops exactly on recovery while it is on. The target sound plays exactly on reaching the target when the latch was clear, and the latch then follows the rate |
| Pacing.TickKeepsConsistent | src/App.tsx:159-190 | a tick keeps "alarm on exactly when six or more slow ticks are behind it" |
| Pacing.TickKeepsAlarmBacked | src/App.tsx:159-190 | a tick keeps "an alarm that is on has six or more slow ticks behind it" |
| Pacing.RunStateFromIdle | src/App.tsx:159-190 | from a fresh session, the state after any readings is fixed by them: the trailing slow count, the alarm on exactly when it is at least six, the latch exactly when the last reading reached the target |
| Pacing.TickCounts | src/App.tsx:159-190 | one tick plays each pacing sound at most once, under exactly its condition, and never a typing sound |
| Pacing.RunStep | src/App.tsx:159-190 | a run of readings is the run of all but the last, followed by one tick |
| Pacing.AlarmPlaysFromIdle | src/App.tsx:166-174 | over any readings, the alarm starts once for each sixth slow reading in a row |
| Pacing.AlarmStopsFromIdle | src/App.tsx:175-182 | over any readings, the alarm stops once for each recovery after six or more slow readings |
| Pacing.TargetSoundsFromIdle | src/App.tsx:184-189 | over any readings, the target sound plays once for each upward crossing of the target |
| Pacing.SlowStreak | src/App.tsx:166-174 | `n` slow readings from the start sound the alarm once if `n >= 6`, and never otherwise |
| Pacing.AlarmOnSixthTick | src/App.tsx:166-174 | in a slow streak the alarm sounds on the sixth tick and on no other tick |
| App.ElapsedSeconds | src/App.tsx:149-152 | `Math.floor((now - start) / 1000)`: the whole seconds since the start, never negative once the clock has passed it |
| App.AverageWpm | src/App.tsx:223 | 0 for a zero duration; otherwise the session's rate in words per minute rounded half up, as both session-ending handlers compute it |
| App.AverageWpmMonotone | src/App.tsx:223 | the average is never negative and never decreases with more words |
| App.AverageWpmOfSteadyRate | src/App.tsx:223 | `k` words a minute for whole minutes reports exactly `k` |
| App.SessionRecord | src/App.tsx:225-241 | the saved session meets its time goal exactly when it lasted no longer than the goal; it carries no creation date |
| App.StopRecord | src/App.tsx:257-274 | stopping saves a session exactly when it has a word, marked goal-met exactly when the word goal is reached |
| App.StopAfterGoalRecordsGoal | src/App.tsx:225-274 | stopping with the goal met saves what reaching the goal saves |
| App.SaveOf | src/App.tsx:257-274 | no session, no save; a session, one `saveSession` call |
| App.ClearIfSet | src/App.tsx:114-121 | exactly a set, non-zero handle is cleared, once |
| App.Clears | src/App.tsx:114-121 | `clearAllIntervals` makes only `clearInterval` calls, and clears every live handle |
| App.AudioSetupInstalls | src/App.tsx:55-89 | a custom recording is installed exactly when the row enables it with a non-empty URL; the key click is on unless the row turns it off |
| App.TypingSounds | src/App.tsx:192-201 | a keypress clicks; a paragraph sound plays exactly on a keypress that makes the text newly end in a blank line |
| App.ParagraphSoundOncePerBreak | src/App.tsx:197-200 | a third newline after a break plays no second paragraph sound |
| App.ParagraphSoundOnBreak | src/App.tsx:197-200 | the second newline of a fresh break plays it |
| App.WritingApp.constructor | src/App.tsx:16-46 | the state on mount: splash view, no session, no intervals, an empty estimator |
| App.WritingApp.Unmount | src/App.tsx:49-51 | the unmount cleanup releases the audio manager and changes no state |
| App.WritingApp.LoadAudioSettings | src/App.tsx:55-89 | without a row nothing changes; a row sets the stored preferences and configures the audio in the source's order |
| App.WritingApp.ClearAllIntervals | src/App.tsx:114-121 | clears every live handle, then forgets all three |
| App.WritingApp.HandleStart | src/App.tsx:123-157 | the audio manager is warmed up, then a fresh session: writing view, empty text and history, idle pacing, the three new handles, the start time `now`. Outside the writing view no old interval was live |
| App.WritingApp.WpmTick | src/App.tsx:144-147 | the shown rate becomes the estimator's; a throwing estimator leaves it and keeps only the evicted history |
| App.WritingApp.ClockTick | src/App.tsx:149-152 | the clock shows the whole seconds since the start |
| App.WritingApp.CheckWarningState | src/App.tsx:159-190 | nothing without a session or in its first 10 s; otherwise one pacing tick on the rolling rate with the stored minimum and target. No alarm sounds outside the writing view or behind the victory modal |
| App.WritingApp.HandleGoalReached | src/App.tsx:215-245 | tears down, saves a goal-met session with the final count (or the current one), shows the victory modal, silences the alarm |
| App.WritingApp.HandleTextChange | src/App.tsx:192-213 | the typing sounds, the new text and its word count fed to the estimator; the first time the count reaches the goal, the goal handler's teardown, save and modal follow |
| App.WritingApp.HandleStopSession | src/App.tsx:247-288 | tears down, saves a session that has a word, and returns to the splash screen with the session forgotten |
| App.WritingApp.HandleNewSession | src/App.tsx:290-294 | back to the splash screen with the modal closed |
| App.WritingApp.HandleViewHistory | src/App.tsx:296-301 | tears down, then shows the history |
| App.WritingApp.HandleViewSettings | src/App.tsx:303-305 | shows the settings page and changes nothing else |
| App.WritingApp.HandleBackToHome | src/App.tsx:307-309 | shows the splash screen and changes nothing else |
| App.WritingApp.HandleSettingsBack | src/App.tsx:331-334 | reloads the stored settings as on mount, then shows the splash screen |
| Settings.CheckUpload | src/components/Settings.tsx:124-136 | no file, then a non-audio MIME type, then a size over 5 MB, are each refused in that order; everything else is accepted |
| Settings.UploadLimitInclusive | src/components/Settings.tsx:133 | exactly 5 MiB is accepted and one byte more is refused |
| Settings.TypeCheckedBeforeSize | src/components/Settings.tsx:128-136 | a non-audio file is refused for its type, never for its size |
| Settings.Sounds.Set | src/components/Settings.tsx:15-39 | replacing one sound's state leaves the other three as they were |
| Settings.AfterUpload | src/components/Settings.tsx:140-183 | an accepted upload selects the new recording; the file name is shown, except on the alarm card, which shows none |
| Settings.TestToggle | src/components/Settings.tsx:290-307 | a playing test stops; with no recording the user is asked to upload; otherwise the recording starts. Only the playing flag changes |
| Settings.TestToggleTwice | src/components/Settings.tsx:290-307 | with a recording, pressing test twice restores the state with two different actions |
| Settings.WithNumber | src/components/Settings.tsx:345-392 | each number field writes only its own default |
| Settings.LoadedDefaults | src/components/Settings.tsx:56-75 | the stored goals and flags are shown as stored, the time goal in whole minutes rounded down, a missing target as 60 and a missing fullscreen flag as on |
| Settings.LoadedSound | src/components/Settings.tsx:66-80 | a loaded sound takes the row's enabled flag and URL (missing ones as off and empty); it shows the uploaded label exactly when the row names a recording |
| Settings.LoadedSounds | src/components/Settings.tsx:66-80 | every sound is loaded by that rule |
| Settings.MissingFieldsFallBack | src/components/Settings.tsx:63-80 | a row missing every optional field loads the defaults: key click on, target 60, fullscreen on, no custom sound |
| Settings.SavedRow | src/components/Settings.tsx:92-108 | the saved row holds the defaults with the time goal in seconds, the click flag and every sound's flag and URL |
| Settings.MinutesRoundTrip | src/components/Settings.tsx:58-94 | minutes saved as seconds load back as the same minutes |
| Settings.SaveThenLoad | src/components/Settings.tsx:53-108 | loading a saved row restores the defaults, the click flag and each sound's flag and URL |
| Settings.SaveNotices | src/components/Settings.tsx:109-113 | after a save the app hears the click flag and every sound's URL and flag |
| Settings.NoticesMatchSavedRow | src/components/Settings.tsx:92-113 | what the app is told matches the row that was saved |
| Settings.SettingsPanel.constructor | src/components/Settings.tsx:15-39 | the initial page: defaults 500, 30, 30, off, 60, on; click on; no recordings; loading |
| Settings.SettingsPanel.LoadSettings | src/components/Settings.tsx:53-87 | without a row the page keeps its values; with one, the defaults and the sounds load from it. Loading ends either way |
| Settings.SettingsPanel.SetNumber | src/components/Settings.tsx:345-392 | a number field stores `parseInt(value) \|\| 0` into its own default only |
| Settings.SettingsPanel.HandleSave | src/components/Settings.tsx:89-122 | the row sent is the page's state; a failure tells the app nothing and shows no confirmation; a success tells the app and confirms |
| Settings.SettingsPanel.SavedTimeout | src/components/Settings.tsx:115 | the confirmation disappears |
| Settings.SettingsPanel.UploadFile | src/components/Settings.tsx:124-269 | a refused file changes nothing. An accepted one selects the recording, and for the alarm only it is passed to storage |
| Settings.SettingsPanel.TestAudio | src/components/Settings.tsx:185-307 | the test button acts as `TestToggle` on that sound alone |
| Settings.SettingsPanel.PlaybackEnded | src/components/Settings.tsx:199-304 | the end of a test recording clears that sound's playing flag |

## Left out

- The audio manager (src/utils/audioManager.ts) is not part of this model. Its calls are returned as effects.
- The fullscreen calls (`enterFullscreen`, `exitFullscreen`) and the fullscreen preference's effect are left out.
- Store calls are left out: `saveSession`, `getUserSettings`, `saveUserSettings`, `saveCustomAudio` and `getSessions`. Rows are parameters and results, and a failed fetch is the absent row.
- `FileReader` is left out: the data URL an upload produces is a parameter.
- `alert` and `console` are left out: a refusal is a returned value.
- The timers are left out. Each interval callback and the 2-second confirmation timeout is a method that the environment calls. `Date.now()` is the `now` parameter.
- Asynchronous handlers run to completion in one step. Other interleavings are not modelled.
- The React render cycle is left out: stale closures and effects re-running on each change. The refs that mirror state are single fields.
- The pass-through handlers at src/App.tsx:311-329 only forward a URL and flag to the audio manager and are not modelled.
- Floating point is not modelled. Ratios are exact rationals, and `Math.round` rounds them half up.
- `Math.sqrt` is not modelled. For the same reason the graded labels of `rhythmStatus` (`LOCKED IN`, `STABLE`, `VARIABLE`, `ERRATIC`) are collapsed into one `Graded` outcome.
- The chart geometry of src/components/TypingRhythm.tsx:49-61 is left out, except the padding of bars with -1.
- src/components/VelocityArc.tsx, the markup and the animations are not part of this model.
- The success notice of `VictoryModal`'s copy button is not modelled (`navigator.clipboard`).
- `SessionHistory.FormatDate`: the locale rendering of a date is the `shown` parameter.
- `NumericInput.HandleNumericInput`: its `min` and `max` parameters are dropped because the source never reads them.
- `WritingCanvas.KeyDownOutcome`: a key counts as one character by Dafny's `char`. JavaScript's `key.length` counts UTF-16 units, so a single astral character has length 2 there.
- `App.WritingApp.LoadAudioSettings`: the source also applies `??` to `default_minimum_wpm` and `no_backspace_mode`, but the record type requires them, so the model reads them directly.
- `App.WritingApp.HandleViewSettings`, `App.WritingApp.HandleBackToHome`, `App.WritingApp.HandleNewSession`, `App.WritingApp.HandleSettingsBack`: each requires the view whose screen renders that button, which the source guarantees by rendering.
- `Settings.SettingsPanel.HandleSave`: the `saving` flag that disables the button during a save is left out, because the save is one step here.
- `Settings.SettingsPanel.UploadFile`: a failing `saveCustomAudio` inside the alarm's `onload` is not modelled. The source leaves that rejection unhandled.
- `Settings.SettingsPanel.LoadSettings`: the checkbox and toggle setters are plain field assignments and are not modelled as separate operations.
