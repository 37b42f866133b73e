/**
 * The rolling words-per-minute estimator of src/utils/wpmCalculator.ts and its
 * word counter. Times are integer milliseconds; the clock reading `now` that the
 * source takes from `Date.now()` is a parameter.
 */
module WpmCalculator {
  import opened JsText
  import opened JsNumber

  /** One observed word count and the time it was observed (`WordEntry`). */
  datatype WordEntry = WordEntry(timestamp: int, wordCount: int)

  /** The width of the sliding window, in milliseconds (`WINDOW_SIZE`). */
  const WindowSize: int := 10000

  /** A newest entry older than this many milliseconds means the writer is idle. */
  const IdleLimit: int := 5000

  /**
   * The outcome of `calculateRollingWPM`: a rate, or the `TypeError` thrown when
   * eviction has emptied a history that held two or more entries.
   */
  datatype Rate = Rate(wpm: nat) | Crash

  /** Timestamps never decrease along the history. */
  ghost predicate Sorted(h: seq<WordEntry>) {
    forall i, j :: 0 <= i <= j < |h| ==> h[i].timestamp <= h[j].timestamp
  }

  /** No entry is later than `now`. */
  ghost predicate NotAfter(h: seq<WordEntry>, now: int) {
    forall i :: 0 <= i < |h| ==> h[i].timestamp <= now
  }

  /** The entries `cleanOldEntries(now)` keeps: those newer than `now - WindowSize`, in their order. */
  function Evict(h: seq<WordEntry>, now: int): (r: seq<WordEntry>)
    ensures |r| <= |h|
    ensures forall i :: 0 <= i < |r| ==> r[i].timestamp > now - WindowSize
  {
    if h == [] then []
    else Evict(h[..|h| - 1], now) + (if h[|h| - 1].timestamp > now - WindowSize then [h[|h| - 1]] else [])
  }

  /** Eviction keeps exactly the entries newer than the cutoff. */
  lemma {:induction false} EvictMembers(h: seq<WordEntry>, now: int)
    ensures forall e :: e in Evict(h, now) <==> e in h && e.timestamp > now - WindowSize
  {
    if h != [] {
      EvictMembers(h[..|h| - 1], now);
      assert h == h[..|h| - 1] + [h[|h| - 1]];
    }
  }

  /** Eviction works entry by entry, so it keeps survivors in their original order. */
  lemma {:induction false} EvictConcat(a: seq<WordEntry>, b: seq<WordEntry>, now: int)
    ensures Evict(a + b, now) == Evict(a, now) + Evict(b, now)
  {
    if b == [] {
      assert a + b == a;
    } else {
      var ab, b' := a + b, b[..|b| - 1];
      var last := b[|b| - 1];
      var tail := if last.timestamp > now - WindowSize then [last] else [];
      assert ab[..|ab| - 1] == a + b' && ab[|ab| - 1] == last;
      assert Evict(ab, now) == Evict(a + b', now) + tail;
      assert Evict(b, now) == Evict(b', now) + tail;
      EvictConcat(a, b', now);
      assert Evict(ab, now) == (Evict(a, now) + Evict(b', now)) + tail;
    }
  }

  /** Evicting at a later time after evicting at an earlier one is the same as evicting once at the later time. */
  lemma {:induction false} EvictLater(h: seq<WordEntry>, t1: int, t2: int)
    requires t1 <= t2
    ensures Evict(Evict(h, t1), t2) == Evict(h, t2)
  {
    if h != [] {
      var init, last := h[..|h| - 1], h[|h| - 1];
      EvictLater(init, t1, t2);
      EvictConcat(Evict(init, t1), if last.timestamp > t1 - WindowSize then [last] else [], t2);
    }
  }

  /** A history whose entries are all at or before the cutoff is emptied. */
  lemma {:induction false} EvictAllOld(h: seq<WordEntry>, now: int)
    requires forall i :: 0 <= i < |h| ==> h[i].timestamp <= now - WindowSize
    ensures Evict(h, now) == []
  {
    if h != [] {
      EvictAllOld(h[..|h| - 1], now);
    }
  }

  /** In a sorted history eviction drops a prefix, and what is left is sorted. */
  lemma {:induction false} EvictSorted(h: seq<WordEntry>, now: int)
    requires Sorted(h)
    ensures Evict(h, now) == h[|h| - |Evict(h, now)|..]
    ensures Sorted(Evict(h, now))
  {
    if h != [] {
      var init, last := h[..|h| - 1], h[|h| - 1];
      assert Sorted(init);
      if last.timestamp > now - WindowSize {
        EvictSorted(init, now);
        var m := |init| - |Evict(init, now)|;
        assert h[m..] == init[m..] + [last];
      } else {
        EvictAllOld(init, now);
      }
    }
  }

  /** A sorted, non-empty history is emptied by eviction exactly when its newest entry is old. */
  lemma EvictEmptyIff(h: seq<WordEntry>, now: int)
    requires Sorted(h) && h != []
    ensures Evict(h, now) == [] <==> h[|h| - 1].timestamp <= now - WindowSize
  {
    EvictSorted(h, now);
    assert h[|h| - 1] in h;
    if h[|h| - 1].timestamp > now - WindowSize {
      assert h[|h| - 1] in Evict(h, now);
    }
  }

  /** `Math.round(60 * words / (ms / 1000))`, computed exactly; `ms` is the non-zero time span. */
  function WordsPerMinute(words: int, ms: int): (r: int)
    requires ms != 0
    ensures var q := if ms > 0 then ms else -ms;
            var p := if ms > 0 then 60000 * words else -60000 * words;
            2 * q * r - q <= 2 * p < 2 * q * r + q
  {
    if ms > 0 then RoundHalfUp(60000 * words, ms) else RoundHalfUp(-60000 * words, -ms)
  }

  /**
   * What `calculateRollingWPM` returns at time `now` when the history is `h`:
   * the length test comes first, then eviction, then the idle and zero-span guards.
   */
  function RateOf(h: seq<WordEntry>, now: int): Rate {
    if |h| < 2 then Rate(0)
    else
      var w := Evict(h, now);
      if w == [] then Crash
      else
        var oldest, newest := w[0], w[|w| - 1];
        if now - newest.timestamp > IdleLimit then Rate(0)
        else if newest.timestamp == oldest.timestamp then Rate(0)
        else
          var wpm := WordsPerMinute(newest.wordCount - oldest.wordCount, newest.timestamp - oldest.timestamp);
          Rate(if wpm < 0 then 0 else wpm)
  }

  /** The history `calculateRollingWPM` leaves behind: evicted, unless the length test returned early. */
  function HistoryAfterRate(h: seq<WordEntry>, now: int): seq<WordEntry> {
    if |h| < 2 then h else Evict(h, now)
  }

  /** The history after `addEntry(wordCount)` at time `now`. */
  function HistoryAfterAdd(h: seq<WordEntry>, wordCount: int, now: int): seq<WordEntry> {
    Evict(h + [WordEntry(now, wordCount)], now)
  }

  // ------------------------------------------------------------ properties

  /** The new entry is the last one kept, and every kept entry is newer than the cutoff. */
  lemma AddKeepsNewEntryLast(h: seq<WordEntry>, wordCount: int, now: int)
    ensures var r := HistoryAfterAdd(h, wordCount, now);
            r != [] && r[|r| - 1] == WordEntry(now, wordCount) &&
            (forall i :: 0 <= i < |r| ==> r[i].timestamp > now - WindowSize) &&
            |r| <= |h| + 1
  {
    var e := WordEntry(now, wordCount);
    assert (h + [e])[..|h|] == h;
    EvictConcat(h, [e], now);
    assert Evict([e], now) == [e] by { assert [e][..0] == []; }
  }

  /** An entry exactly `WindowSize` old is dropped. */
  lemma EntryAtCutoffDropped(e: WordEntry, h: seq<WordEntry>, now: int)
    requires e.timestamp == now - WindowSize
    ensures e !in Evict(h, now)
  {
  }

  /** With a clock that never goes back, adding an entry keeps the history sorted and not in the future. */
  lemma AddKeepsSorted(h: seq<WordEntry>, wordCount: int, now: int)
    requires Sorted(h) && NotAfter(h, now)
    ensures Sorted(HistoryAfterAdd(h, wordCount, now)) && NotAfter(HistoryAfterAdd(h, wordCount, now), now)
  {
    var h' := h + [WordEntry(now, wordCount)];
    assert Sorted(h');
    EvictSorted(h', now);
  }

  /** Fewer than two entries give 0, before any eviction, and leave the history as it was. */
  lemma RateOfSparse(h: seq<WordEntry>, now: int)
    requires |h| < 2
    ensures RateOf(h, now) == Rate(0) && HistoryAfterRate(h, now) == h
  {
  }

  /**
   * For a sorted history read at a time no earlier than its entries, the call throws
   * exactly when it holds two or more entries and even the newest is at least `WindowSize` old.
   */
  lemma CrashIff(h: seq<WordEntry>, now: int)
    requires Sorted(h) && NotAfter(h, now)
    ensures RateOf(h, now) == Crash <==> |h| >= 2 && h[|h| - 1].timestamp <= now - WindowSize
  {
    if |h| >= 2 {
      EvictEmptyIff(h, now);
    }
  }

  /** The call that throws has already emptied the history, so the next call returns 0. */
  lemma CrashThenZero(h: seq<WordEntry>, now: int, later: int)
    requires RateOf(h, now) == Crash
    ensures HistoryAfterRate(h, now) == []
    ensures RateOf(HistoryAfterRate(h, now), later) == Rate(0)
  {
  }

  /** Two entries that both fall out of the window between two calls make the second call throw. */
  lemma CrashExample()
    ensures RateOf([WordEntry(0, 1), WordEntry(1000, 3)], 20000) == Crash
  {
    var h := [WordEntry(0, 1), WordEntry(1000, 3)];
    assert Sorted(h) && NotAfter(h, 20000);
    CrashIff(h, 20000);
  }

  /** An idle writer gets 0: the newest kept entry is more than `IdleLimit` old. */
  lemma RateOfIdle(h: seq<WordEntry>, now: int)
    requires |h| >= 2
    requires var w := Evict(h, now); w != [] && now - w[|w| - 1].timestamp > IdleLimit
    ensures RateOf(h, now) == Rate(0)
  {
  }

  /** A single kept entry, or kept entries sharing one timestamp, give 0. */
  lemma RateOfZeroSpan(h: seq<WordEntry>, now: int)
    requires var w := Evict(h, now); w != [] && w[0].timestamp == w[|w| - 1].timestamp
    ensures RateOf(h, now) == Rate(0)
  {
  }

  /**
   * Otherwise the rate is the integer nearest to the slope between the oldest and the
   * newest kept entries, in words per minute, floored at 0. An entry exactly `IdleLimit`
   * old still counts as recent.
   */
  lemma RateOfSlope(h: seq<WordEntry>, now: int)
    requires |h| >= 2
    requires var w := Evict(h, now);
             w != [] && now - w[|w| - 1].timestamp <= IdleLimit && w[0].timestamp < w[|w| - 1].timestamp
    ensures var w := Evict(h, now);
            var words, ms := w[|w| - 1].wordCount - w[0].wordCount, w[|w| - 1].timestamp - w[0].timestamp;
            RateOf(h, now).Rate? &&
            (words <= 0 ==> RateOf(h, now).wpm == 0) &&
            (words > 0 ==> 2 * ms * RateOf(h, now).wpm - ms <= 120000 * words < 2 * ms * RateOf(h, now).wpm + ms)
  {
    var w := Evict(h, now);
    var words, ms := w[|w| - 1].wordCount - w[0].wordCount, w[|w| - 1].timestamp - w[0].timestamp;
    if words <= 0 {
      RoundHalfUpMonotone(60000 * words, 0, ms);
      RoundHalfUpExact(0, ms);
    } else {
      RoundHalfUpNonNegative(60000 * words, ms);
    }
  }

  /**
   * Two entries exactly `WindowSize` apart, read at the time of the second: the first is
   * at the cutoff and dropped, so the rate is 0 rather than 60.
   */
  lemma WindowEdgeExample()
    ensures RateOf([WordEntry(0, 10), WordEntry(10000, 20)], 10000) == Rate(0)
  {
    var h := [WordEntry(0, 10), WordEntry(10000, 20)];
    assert h[..1] == [WordEntry(0, 10)];
    assert Evict(h, 10000) == [WordEntry(10000, 20)] by {
      assert Evict(h[..1], 10000) == [] by { assert h[..1][..0] == []; }
    }
  }

  /** One millisecond earlier both entries are in the window and the rate is 60. */
  lemma InsideWindowExample()
    ensures RateOf([WordEntry(1, 10), WordEntry(10000, 20)], 10000) == Rate(60)
  {
    var h := [WordEntry(1, 10), WordEntry(10000, 20)];
    assert h[..1] == [WordEntry(1, 10)];
    assert Evict(h, 10000) == h by {
      assert Evict(h[..1], 10000) == [WordEntry(1, 10)] by { assert h[..1][..0] == []; }
    }
    RoundHalfUpUnique(600000, 9999, 60);
  }

  // ------------------------------------------------------------ the estimator object

  /** `WPMCalculator`: the sliding window of word-count entries, updated in place. */
  class WPMCalculator {
    var wordHistory: seq<WordEntry>

    constructor ()
      ensures wordHistory == []
    {
      wordHistory := [];
    }

    /** `addEntry`: append an entry stamped `now`, then evict. */
    method AddEntry(wordCount: int, now: int)
      modifies this
      ensures wordHistory == HistoryAfterAdd(old(wordHistory), wordCount, now)
      ensures wordHistory != [] && wordHistory[|wordHistory| - 1] == WordEntry(now, wordCount)
    {
      wordHistory := wordHistory + [WordEntry(now, wordCount)];
      CleanOldEntries(now);
      AddKeepsNewEntryLast(old(wordHistory), wordCount, now);
    }

    /** `cleanOldEntries`: keep the entries newer than `currentTime - WindowSize`. */
    method CleanOldEntries(currentTime: int)
      modifies this
      ensures wordHistory == Evict(old(wordHistory), currentTime)
    {
      wordHistory := Evict(wordHistory, currentTime);
    }

    /** `calculateRollingWPM` at time `now`. */
    method CalculateRollingWPM(now: int) returns (r: Rate)
      modifies this
      ensures r == RateOf(old(wordHistory), now)
      ensures wordHistory == HistoryAfterRate(old(wordHistory), now)
    {
      if |wordHistory| < 2 {
        return Rate(0);
      }
      CleanOldEntries(now);
      if wordHistory == [] {
        return Crash;
      }
      var newest := wordHistory[|wordHistory| - 1];
      if now - newest.timestamp > IdleLimit {
        return Rate(0);
      }
      var oldest := wordHistory[0];
      var wordDiff := newest.wordCount - oldest.wordCount;
      var timeDiff := newest.timestamp - oldest.timestamp;
      if timeDiff == 0 {
        return Rate(0);
      }
      var wpm := WordsPerMinute(wordDiff, timeDiff);
      r := Rate(if wpm < 0 then 0 else wpm);
    }

    /** `reset`: forget every entry. */
    method Reset()
      modifies this
      ensures wordHistory == []
      ensures forall now :: RateOf(wordHistory, now) == Rate(0)
    {
      wordHistory := [];
    }
  }

  // ------------------------------------------------------------ countWords

  /** `s.split(/\s+/)`: the pieces between maximal runs of white space, with `""` for a leading or trailing run. */
  function Split(s: string): (r: seq<string>)
    ensures |r| >= 1
    ensures forall i, j :: 0 <= i < |r| && 0 <= j < |r[i]| ==> !IsSpace(r[i][j])
    decreases |s|
  {
    if s == [] then [""]
    else if IsSpace(s[0]) then [""] + Split(TrimStart(s[1..]))
    else
      var rest := Split(s[1..]);
      [[s[0]] + rest[0]] + rest[1..]
  }

  /** `countWords`: 0 for blank text, otherwise the number of pieces of the trimmed text. */
  function CountWords(text: string): (r: nat)
    ensures r == Words(text)
    ensures r == 0 <==> AllSpace(text)
  {
    var t := Trim(text);
    TrimEmptyIffAllSpace(text);
    CountWordsIsWords(text);
    if t == [] then 0 else |Split(t)|
  }

  /**
   * The reference count: the positions where a run of non-space characters begins,
   * scanning left to right; `afterSpace` says whether the previous character was
   * white space (or there was none).
   */
  function WordStarts(s: string, afterSpace: bool): nat {
    if s == [] then 0
    else (if afterSpace && !IsSpace(s[0]) then 1 else 0) + WordStarts(s[1..], IsSpace(s[0]))
  }

  /** The number of maximal runs of non-space characters in `s`. */
  function Words(s: string): nat {
    WordStarts(s, true)
  }

  lemma {:induction false} WordStartsOfSpaces(s: string, afterSpace: bool)
    requires AllSpace(s)
    ensures WordStarts(s, afterSpace) == 0
  {
    if s != [] {
      assert IsSpace(s[0]);
      assert AllSpace(s[1..]) by { forall i | 0 <= i < |s| - 1 ensures IsSpace(s[1..][i]) { assert s[1..][i] == s[i + 1]; } }
      WordStartsOfSpaces(s[1..], true);
    }
  }

  /** Leading white space starts no word. */
  lemma {:induction false} WordStartsSkipSpaces(s: string)
    ensures WordStarts(s, true) == WordStarts(TrimStart(s), true)
  {
    if s != [] && IsSpace(s[0]) {
      WordStartsSkipSpaces(s[1..]);
    }
  }

  /** Trailing white space starts no word. */
  lemma {:induction false} WordStartsTrailingSpaces(a: string, t: string, afterSpace: bool)
    requires AllSpace(t)
    ensures WordStarts(a + t, afterSpace) == WordStarts(a, afterSpace)
  {
    if a == [] {
      assert a + t == t;
      WordStartsOfSpaces(t, afterSpace);
    } else {
      assert (a + t)[0] == a[0] && (a + t)[1..] == a[1..] + t;
      WordStartsTrailingSpaces(a[1..], t, IsSpace(a[0]));
    }
  }

  /** The number of pieces of a string that does not end in white space is one more than the words begun after a character. */
  lemma {:induction false} SplitCount(s: string)
    requires s == [] || !IsSpace(s[|s| - 1])
    ensures |Split(s)| == WordStarts(s, false) + 1
    decreases |s|
  {
    if s == [] {
    } else if IsSpace(s[0]) {
      assert |s| > 1;
      var d := TrimStart(s[1..]);
      TrimStartKeepsLast(s[1..]);
      assert d != [] && !IsSpace(d[0]);
      SplitCount(d);
      WordStartsSkipSpaces(s[1..]);
      assert WordStarts(d, true) == 1 + WordStarts(d[1..], false);
      assert WordStarts(d, false) == WordStarts(d[1..], false);
    } else {
      SplitCount(s[1..]);
    }
  }

  lemma {:induction false} TrimStartKeepsLast(s: string)
    requires s != [] && !IsSpace(s[|s| - 1])
    ensures TrimStart(s) != [] && TrimStart(s)[|TrimStart(s)| - 1] == s[|s| - 1]
  {
    if IsSpace(s[0]) {
      assert |s| > 1;
      TrimStartKeepsLast(s[1..]);
    }
  }

  /** A word starts at the first character exactly when it is not white space. */
  lemma WordStartsAtFront(t: string)
    requires t != [] && !IsSpace(t[0])
    ensures WordStarts(t, true) == WordStarts(t, false) + 1
  {
  }

  /** Trimming does not change the number of words. */
  lemma WordsOfTrim(text: string)
    ensures Words(text) == WordStarts(Trim(text), true)
  {
    var t1 := TrimStart(text);
    WordStartsSkipSpaces(text);
    TrimEndSplit(t1);
    WordStartsTrailingSpaces(TrimEnd(t1), t1[|TrimEnd(t1)|..], true);
  }

  /** `countWords` counts the maximal runs of non-space characters. */
  lemma CountWordsIsWords(text: string)
    ensures (if Trim(text) == [] then 0 else |Split(Trim(text))|) == Words(text)
  {
    WordsOfTrim(text);
    var t := Trim(text);
    if t != [] {
      assert t[0] == TrimStart(text)[0];
      SplitCount(t);
      WordStartsAtFront(t);
    }
  }
}
