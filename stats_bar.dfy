/** The bar above the writing area, src/components/StatsBar.tsx: the clock label and the two goal badges. */
module StatsBar {
  import opened Wrappers
  import opened JsText
  import opened JsNumber

  /** `formatTime`: `Math.floor(s / 60)`, a colon, and `s % 60` padded to two characters with `0`. */
  function FormatTime(seconds: int): (r: string)
    ensures seconds >= 0 ==> r == NatToString(seconds / 60) + ":" + PadStart(NatToString(seconds % 60), 2, '0')
  {
    IntToString(FloorDiv(seconds, 60)) + ":" + PadStart(IntToString(Rem(seconds, 60)), 2, '0')
  }

  /** The seconds field of a non-negative time is two decimal digits denoting `s % 60`. */
  lemma SecondsFieldTwoDigits(seconds: int)
    requires seconds >= 0
    ensures var f := PadStart(NatToString(seconds % 60), 2, '0');
      |f| == 2 && AllDigits(f) && ValueOf(f, 10) == seconds % 60
  {
    var c := NatToString(seconds % 60);
    var f := PadStart(c, 2, '0');
    if |c| == 1 {
      assert f == "0" + c;
      ValueOfLeadingZero(c, 10);
    } else {
      assert c[|c| - |c|..] == c;
    }
  }

  /** The label is a minutes field, a colon and the padded seconds field. */
  lemma FormatTimeFields(seconds: int)
    requires seconds >= 0
    ensures FormatTime(seconds) == NatToString(seconds / 60) + (":" + PadStart(NatToString(seconds % 60), 2, '0'))
  {
    var m, f := NatToString(seconds / 60), PadStart(NatToString(seconds % 60), 2, '0');
    assert m + ":" + f == m + (":" + f);
  }

  /** Reading the clock back, minutes first: `parseInt` of the label is `Math.floor(s / 60)`. */
  lemma FormatTimeMinutes(seconds: int)
    requires seconds >= 0
    ensures ParseInt10(FormatTime(seconds)) == Some(seconds / 60)
  {
    FormatTimeFields(seconds);
    SecondsFieldTwoDigits(seconds);
    ColonThenDigits(NatToString(seconds / 60), PadStart(NatToString(seconds % 60), 2, '0'));
  }

  /** Then the seconds: the two characters after the colon read as `s % 60`. */
  lemma FormatTimeSeconds(seconds: int)
    requires seconds >= 0
    ensures |NatToString(seconds / 60)| + 3 == |FormatTime(seconds)|
    ensures ParseInt10(FormatTime(seconds)[|NatToString(seconds / 60)| + 1..]) == Some(seconds % 60)
  {
    FormatTimeFields(seconds);
    SecondsFieldTwoDigits(seconds);
    ColonThenDigits(NatToString(seconds / 60), PadStart(NatToString(seconds % 60), 2, '0'));
  }

  /** Two digit runs around a colon: `parseInt` reads the first, and from past the colon the second. */
  lemma ColonThenDigits(m: string, f: string)
    requires m != [] && AllDigits(m) && f != [] && AllDigits(f)
    ensures ParseInt10(m + (":" + f)) == Some(ValueOf(m, 10))
    ensures (m + (":" + f))[|m| + 1..] == f
    ensures ParseInt10(f) == Some(ValueOf(f, 10))
  {
    var sep, tail: string := ":", [];
    assert f + tail == f;
    ParseTwoFields(m, sep, f, tail);
  }

  /** `timeGoalReached`: the clock has reached the time goal. */
  function TimeGoalReached(elapsedSeconds: int, timeGoalSeconds: int): (r: bool)
    ensures r <==> elapsedSeconds >= timeGoalSeconds
  {
    elapsedSeconds >= timeGoalSeconds
  }

  /** Which of "Goal Reached!" and "Time Goal!" the bar shows. */
  datatype Badges = Badges(goalReached: bool, timeGoal: bool)

  function BadgesOf(wordCount: int, wordGoal: int, elapsedSeconds: int, timeGoalSeconds: int): (r: Badges)
    ensures r.goalReached <==> wordCount >= wordGoal
    ensures r.timeGoal <==> TimeGoalReached(elapsedSeconds, timeGoalSeconds)
  {
    Badges(wordCount >= wordGoal, TimeGoalReached(elapsedSeconds, timeGoalSeconds))
  }

  /** Writing on never takes a badge away: both are monotone in the word count and the clock. */
  lemma BadgesStay(w1: int, w2: int, e1: int, e2: int, wordGoal: int, timeGoalSeconds: int)
    requires w1 <= w2 && e1 <= e2
    ensures BadgesOf(w1, wordGoal, e1, timeGoalSeconds).goalReached ==> BadgesOf(w2, wordGoal, e2, timeGoalSeconds).goalReached
    ensures BadgesOf(w1, wordGoal, e1, timeGoalSeconds).timeGoal ==> BadgesOf(w2, wordGoal, e2, timeGoalSeconds).timeGoal
  {
  }
}
