/** The end-of-session dialog, src/components/VictoryModal.tsx: its time label and the time-goal mark. */
module VictoryModal {
  import opened JsText
  import opened JsNumber
  import SessionHistory
  import StatsBar

  /** `timeGoalAchieved`: the session took no longer than its time goal. */
  function TimeGoalAchieved(durationSeconds: int, timeGoalSeconds: int): (r: bool)
    ensures r <==> durationSeconds <= timeGoalSeconds
  {
    durationSeconds <= timeGoalSeconds
  }

  /** `formatTime`: minutes and unpadded seconds, as `"<m>m <s>s"`. */
  function FormatTime(seconds: int): (r: string)
    ensures seconds >= 0 ==> r == NatToString(seconds / 60) + "m " + NatToString(seconds % 60) + "s"
  {
    var mins := FloorDiv(seconds, 60);
    var secs := Rem(seconds, 60);
    IntToString(mins) + "m " + IntToString(secs) + "s"
  }

  /** The dialog and the history list write durations alike, negative ones included. */
  lemma FormatTimeIsFormatDuration(seconds: int)
    ensures FormatTime(seconds) == SessionHistory.FormatDuration(seconds)
  {
  }

  /** The check mark after the time goal. */
  const CheckMark: string := " ✓"

  /** The line under the time taken: the goal, and the mark when it was met. */
  function GoalLine(durationSeconds: int, timeGoalSeconds: int): string {
    "Goal: " + FormatTime(timeGoalSeconds) + (if TimeGoalAchieved(durationSeconds, timeGoalSeconds) then CheckMark else "")
  }

  /** The line ends with the mark exactly when the time goal was met. */
  lemma GoalLineMarked(durationSeconds: int, timeGoalSeconds: int)
    ensures EndsWith(GoalLine(durationSeconds, timeGoalSeconds), CheckMark) <==> TimeGoalAchieved(durationSeconds, timeGoalSeconds)
  {
    var line := GoalLine(durationSeconds, timeGoalSeconds);
    if !TimeGoalAchieved(durationSeconds, timeGoalSeconds) {
      assert line[|line| - 1] == 's';
      assert CheckMark[|CheckMark| - 1] == '✓';
    }
  }

  /**
   * The bar's "Time Goal!" (elapsed at least the goal) and the dialog's mark
   * (duration at most the goal) are opposite comparisons: both show only when
   * the session ends exactly on the goal, and at least one always shows.
   */
  lemma TimeFlagsMeetAtGoal(seconds: int, timeGoalSeconds: int)
    ensures StatsBar.TimeGoalReached(seconds, timeGoalSeconds) && TimeGoalAchieved(seconds, timeGoalSeconds) <==>
            seconds == timeGoalSeconds
    ensures StatsBar.TimeGoalReached(seconds, timeGoalSeconds) || TimeGoalAchieved(seconds, timeGoalSeconds)
  {
  }
}
