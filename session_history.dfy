/** The figures of src/components/SessionHistory.tsx: the duration label, the date label, and the summary folds. */
module SessionHistory {
  import opened Wrappers
  import opened JsText
  import opened JsNumber
  import opened Records

  /** `formatDuration`: `Math.floor(s / 60)` minutes and `s % 60` seconds, as `"<m>m <s>s"`. */
  function FormatDuration(seconds: int): (r: string)
    ensures seconds >= 0 ==> r == NatToString(seconds / 60) + "m " + NatToString(seconds % 60) + "s"
  {
    IntToString(FloorDiv(seconds, 60)) + "m " + IntToString(Rem(seconds, 60)) + "s"
  }

  /** The label is the minutes field, `"m "`, the seconds field and `"s"`. */
  lemma FormatDurationFields(seconds: int)
    requires seconds >= 0
    ensures FormatDuration(seconds) == NatToString(seconds / 60) + ("m " + (NatToString(seconds % 60) + "s"))
  {
    var m, c := NatToString(seconds / 60), NatToString(seconds % 60);
    assert m + "m " + c + "s" == m + ("m " + (c + "s"));
  }

  /**
   * Reading the label back, minutes first: `parseInt` of the label is
   * `Math.floor(s / 60)`, which for `s >= 0` is the quotient of `s` by 60.
   */
  lemma FormatDurationMinutes(seconds: int)
    requires seconds >= 0
    ensures ParseInt10(FormatDuration(seconds)) == Some(seconds / 60)
  {
    var m, c := NatToString(seconds / 60), NatToString(seconds % 60);
    var rest := "m " + (c + "s");
    FormatDurationFields(seconds);
    assert rest[0] == 'm';
    ParseInt10OfDigitsThen(m, rest);
  }

  /** Then the seconds: `parseInt` of what follows `"m "` is `s % 60`, the remainder of `s` by 60. */
  lemma FormatDurationSeconds(seconds: int)
    requires seconds >= 0
    ensures |NatToString(seconds / 60)| + 2 <= |FormatDuration(seconds)|
    ensures ParseInt10(FormatDuration(seconds)[|NatToString(seconds / 60)| + 2..]) == Some(seconds % 60)
  {
    FormatDurationFields(seconds);
    SecondsFieldOf(FormatDuration(seconds), NatToString(seconds / 60), seconds % 60);
  }

  /** In a label `"<m>m <n>s"`, `parseInt` from just past `"m "` reads `n`. */
  lemma SecondsFieldOf(t: string, m: string, n: nat)
    requires t == m + ("m " + (NatToString(n) + "s"))
    ensures |m| + 2 <= |t|
    ensures ParseInt10(t[|m| + 2..]) == Some(n)
  {
    var c := NatToString(n);
    assert t[|m| + 2..] == c + "s";
    ParseInt10OfDigitsThen(c, "s");
  }

  /** `formatDate`, up to the locale rendering `shown` of a present date: a missing or empty date shows nothing. */
  function FormatDate(date: Option<string>, shown: string): (r: string)
    ensures date.None? || date.value == "" ==> r == ""
    ensures date.Some? && date.value != "" ==> r == shown
  {
    match date
    case None => ""
    case Some(d) => if d == "" then "" else shown
  }

  /** The numeric columns the summary adds up. */
  datatype Column = WordCountColumn | DurationColumn | AverageWpmColumn

  function Cell(s: WritingSession, c: Column): int {
    match c
    case WordCountColumn => s.wordCount
    case DurationColumn => s.durationSeconds
    case AverageWpmColumn => s.averageWpm
  }

  /** One column of the session list, in order. */
  function ColumnOf(sessions: seq<WritingSession>, c: Column): (r: seq<int>)
    ensures |r| == |sessions|
    ensures forall i :: 0 <= i < |r| ==> r[i] == Cell(sessions[i], c)
  {
    seq(|sessions|, i requires 0 <= i < |sessions| => Cell(sessions[i], c))
  }

  lemma ColumnConcat(a: seq<WritingSession>, b: seq<WritingSession>, c: Column)
    ensures ColumnOf(a + b, c) == ColumnOf(a, c) + ColumnOf(b, c)
  {
    assert forall i :: 0 <= i < |a| + |b| ==> (a + b)[i] == if i < |a| then a[i] else b[i - |a|];
  }

  /** `totalWords`. */
  function TotalWords(sessions: seq<WritingSession>): int {
    Sum(ColumnOf(sessions, WordCountColumn))
  }

  /** `totalTime`. */
  function TotalTime(sessions: seq<WritingSession>): int {
    Sum(ColumnOf(sessions, DurationColumn))
  }

  /** Both totals of two lists put together are the sums of their totals. */
  lemma TotalsAdditive(a: seq<WritingSession>, b: seq<WritingSession>)
    ensures TotalWords(a + b) == TotalWords(a) + TotalWords(b)
    ensures TotalTime(a + b) == TotalTime(a) + TotalTime(b)
  {
    ColumnConcat(a, b, WordCountColumn);
    SumConcat(ColumnOf(a, WordCountColumn), ColumnOf(b, WordCountColumn));
    ColumnConcat(a, b, DurationColumn);
    SumConcat(ColumnOf(a, DurationColumn), ColumnOf(b, DurationColumn));
  }

  /** `avgWPM`: the rounded mean of the sessions' average rates, 0 for no session. */
  function AvgWpm(sessions: seq<WritingSession>): (r: int)
    ensures sessions == [] ==> r == 0
    ensures sessions != [] ==>
      var total, n := Sum(ColumnOf(sessions, AverageWpmColumn)), |sessions|;
      2 * n * r - n <= 2 * total < 2 * n * r + n
  {
    if |sessions| > 0 then RoundHalfUp(Sum(ColumnOf(sessions, AverageWpmColumn)), |sessions|) else 0
  }

  /** The mean lies between the least and the greatest of the averages it is taken over. */
  lemma AvgWpmBetween(sessions: seq<WritingSession>, lo: int, hi: int)
    requires sessions != []
    requires forall i :: 0 <= i < |sessions| ==> lo <= sessions[i].averageWpm <= hi
    ensures lo <= AvgWpm(sessions) <= hi
  {
    var col, n := ColumnOf(sessions, AverageWpmColumn), |sessions|;
    SumBounds(col, lo, hi);
    assert n * lo == lo * n && n * hi == hi * n;
    RoundHalfUpMonotone(lo * n, Sum(col), n);
    RoundHalfUpMonotone(Sum(col), hi * n, n);
    RoundHalfUpExact(lo, n);
    RoundHalfUpExact(hi, n);
  }

  /** `goalsAchieved`: how many sessions met their word goal. */
  function GoalsAchieved(sessions: seq<WritingSession>): (r: nat)
    ensures r <= |sessions|
  {
    if sessions == [] then 0
    else GoalsAchieved(sessions[..|sessions| - 1]) + if sessions[|sessions| - 1].wordGoalAchieved then 1 else 0
  }

  /** Every session is counted exactly when every session met its goal. */
  lemma {:induction false} GoalsAchievedAll(sessions: seq<WritingSession>)
    ensures GoalsAchieved(sessions) == |sessions| <==> forall i :: 0 <= i < |sessions| ==> sessions[i].wordGoalAchieved
  {
    if sessions != [] {
      var init := sessions[..|sessions| - 1];
      GoalsAchievedAll(init);
      assert forall i :: 0 <= i < |init| ==> init[i] == sessions[i];
    }
  }
}
