/**
 * The rate chart of src/components/TypingRhythm.tsx: the colour of a bar, the
 * buffer of recent distinct rates, its padding to a fixed width, and the
 * warming-up test of the rhythm label.
 */
module TypingRhythm {
  import opened JsNumber

  /** `MAX_BARS`: the chart shows at most 30 samples. */
  const MaxBars: nat := 30

  /** The rhythm label looks at the last 12 samples. */
  const StatusWindow: nat := 12

  /** Fewer positive samples than this in the window are still warming up. */
  const WarmUpSamples: nat := 4

  datatype BarColor = Gray | Red | Orange | Yellow | Green

  /**
   * `barColor`. The orange test `wpm < min + (target - min) * 0.5` is the
   * exact comparison `2 * wpm < min + target` (see `MidpointExact`).
   */
  function BarColorOf(wpm: int, minimum: int, target: int): (c: BarColor)
    ensures c == Gray <==> wpm == 0
    ensures wpm != 0 ==> (c == Red <==> wpm < minimum)
    ensures wpm != 0 && wpm >= minimum ==> (c == Orange <==> 2 * wpm < minimum + target)
    ensures wpm != 0 && wpm >= minimum && 2 * wpm >= minimum + target ==> (c == Yellow <==> wpm < target)
  {
    if wpm == 0 then Gray
    else if wpm < minimum then Red
    else if 2 * wpm < minimum + target then Orange
    else if wpm < target then Yellow
    else Green
  }

  /** The source's comparison on the halfway point, over the reals, is the integer comparison the model uses. */
  lemma MidpointExact(wpm: int, minimum: int, target: int)
    ensures (wpm as real) < (minimum as real) + ((target - minimum) as real) * 0.5 <==> 2 * wpm < minimum + target
  {
  }

  /** The colours in order of pace; gray is the empty bar. */
  function Rank(c: BarColor): nat {
    match c
    case Gray => 0
    case Red => 1
    case Orange => 2
    case Yellow => 3
    case Green => 4
  }

  /** A faster bar is never a worse colour, whatever the minimum and target. */
  lemma BarColorMonotone(w1: int, w2: int, minimum: int, target: int)
    requires 0 < w1 <= w2
    ensures Rank(BarColorOf(w1, minimum, target)) <= Rank(BarColorOf(w2, minimum, target))
  {
  }

  /** The last `n` elements of `s` (`s.slice(-n)` when `s` is longer). */
  function LastN(s: seq<int>, n: nat): (r: seq<int>)
    ensures |r| == if |s| <= n then |s| else n
    ensures r == s[|s| - |r|..]
  {
    if |s| > n then s[|s| - n..] else s
  }

  /** Trimming before or after an append keeps the same tail. */
  lemma LastNAppend(s: seq<int>, x: int, n: nat)
    requires n > 0
    ensures LastN(LastN(s, n) + [x], n) == LastN(s + [x], n)
  {
    var t := LastN(s, n);
    var a, b := LastN(t + [x], n), LastN(s + [x], n);
    assert |a| == |b|;
    forall i | 0 <= i < |a| ensures a[i] == b[i] {
      if i == |a| - 1 {
        assert a[i] == x && b[i] == x;
      } else {
        assert a[i] == t[|t| + 1 - |a| + i];
        assert b[i] == s[|s| + 1 - |b| + i];
      }
    }
  }

  /** `prevRef` after the rates `observed`: the last of them, or −1 before any. */
  function PrevOf(observed: seq<int>): int {
    if observed == [] then -1 else observed[|observed| - 1]
  }

  /** The rates the effect appends: each observed rate that differs from the one before it. */
  function Distinct(observed: seq<int>): seq<int> {
    if observed == [] then []
    else
      var init := observed[..|observed| - 1];
      if observed[|observed| - 1] == PrevOf(init) then Distinct(init) else Distinct(init) + [observed[|observed| - 1]]
  }

  /** The first rate is always recorded unless it is the −1 seed, and the same rate twice in a row once. */
  lemma DistinctExamples(a: int, b: int)
    requires a != -1 && a != b
    ensures Distinct([a]) == [a]
    ensures Distinct([a, a]) == [a]
    ensures Distinct([a, b, b]) == [a, b]
  {
    assert [a, a][..1] == [a];
    assert [a, b][..1] == [a];
    assert [a, b, b][..2] == [a, b];
  }

  /** `samples` and `prevRef`; `observed` is every rate the effect has seen. */
  class RhythmBuffer {
    var samples: seq<int>
    var prev: int
    ghost var observed: seq<int>

    /** The buffer is the last 30 distinct-from-previous rates. */
    ghost predicate Valid()
      reads this
    {
      samples == LastN(Distinct(observed), MaxBars) && prev == PrevOf(observed)
    }

    constructor ()
      ensures Valid() && observed == [] && samples == [] && prev == -1
    {
      samples := [];
      prev := -1;
      observed := [];
    }

    /** The effect on `currentWPM`: append a rate that differs from the previous one, keep the last 30. */
    method Observe(currentWpm: int)
      requires Valid()
      modifies this
      ensures Valid() && observed == old(observed) + [currentWpm]
      ensures |samples| <= MaxBars
      ensures currentWpm == old(prev) ==> samples == old(samples)
      ensures currentWpm != old(prev) ==> samples == LastN(old(samples) + [currentWpm], MaxBars)
      ensures currentWpm != old(prev) ==> samples != [] && samples[|samples| - 1] == currentWpm
    {
      ghost var before := observed;
      observed := observed + [currentWpm];
      assert observed[..|observed| - 1] == before;
      if currentWpm != prev {
        assert Distinct(observed) == Distinct(before) + [currentWpm];
        prev := currentWpm;
        var next := samples + [currentWpm];
        samples := if |next| > MaxBars then next[|next| - MaxBars..] else next;
        assert samples == LastN(next, MaxBars);
        LastNAppend(Distinct(before), currentWpm, MaxBars);
      } else {
        assert Distinct(observed) == Distinct(before);
      }
    }
  }

  /** `paddedSamples`: −1 placeholders in front of the buffer up to the chart width. */
  function Padded(samples: seq<int>): (r: seq<int>)
    ensures |samples| <= MaxBars ==> |r| == MaxBars
    ensures |samples| >= MaxBars ==> r == samples
    ensures |r| >= |samples| && r[|r| - |samples|..] == samples
    ensures forall i :: 0 <= i < |r| - |samples| ==> r[i] == -1
  {
    if |samples| < MaxBars then seq(MaxBars - |samples|, _ => -1) + samples else samples
  }

  /**
   * `samples.filter(s => s > 0)`: every positive sample is kept as often as it
   * occurs, nothing else is, and the kept samples stay in their order.
   */
  function Positives(s: seq<int>): (r: seq<int>)
    ensures |r| <= |s|
    ensures forall i :: 0 <= i < |r| ==> r[i] > 0
    ensures forall x :: x in r <==> x in s && x > 0
    ensures forall x :: multiset(r)[x] == (if x > 0 then multiset(s)[x] else 0)
  {
    if s == [] then []
    else
      assert s == s[..|s| - 1] + [s[|s| - 1]];
      if s[|s| - 1] > 0 then Positives(s[..|s| - 1]) + [s[|s| - 1]]
      else Positives(s[..|s| - 1])
  }

  /** The filter is taken piece by piece: it distributes over concatenation, so order is kept. */
  lemma {:induction false} PositivesConcat(a: seq<int>, b: seq<int>)
    ensures Positives(a + b) == Positives(a) + Positives(b)
    decreases |b|
  {
    if b == [] {
      assert a + b == a;
    } else {
      var b' := b[..|b| - 1];
      assert (a + b)[..|a + b| - 1] == a + b';
      assert (a + b)[|a + b| - 1] == b[|b| - 1];
      PositivesConcat(a, b');
    }
  }

  /** The rhythm label, up to its coefficient-of-variation grading, which is not part of this model. */
  datatype Rhythm = WarmingUp | Paused | Graded

  /** `rhythmStatus` on a list of samples. */
  function RhythmStatus(samples: seq<int>): Rhythm {
    var active := Positives(samples);
    if |active| < WarmUpSamples then WarmingUp
    else if Sum(active) == 0 then Paused
    else Graded
  }

  /** The label the chart shows: the status of the last 12 samples. */
  function ShownStatus(samples: seq<int>): Rhythm {
    RhythmStatus(LastN(samples, StatusWindow))
  }

  /** A sum of positive terms is positive. */
  lemma {:induction false} SumOfPositives(xs: seq<int>)
    requires xs != []
    requires forall i :: 0 <= i < |xs| ==> xs[i] > 0
    ensures Sum(xs) > 0
  {
    var init := xs[..|xs| - 1];
    if init != [] {
      assert forall i :: 0 <= i < |init| ==> init[i] == xs[i];
      SumOfPositives(init);
    }
  }

  /**
   * The `PAUSED` branch is unreachable: once four samples are positive their
   * mean is positive. The label is warming-up exactly when fewer than four of
   * the last 12 samples are positive.
   */
  lemma PausedUnreachable(samples: seq<int>)
    ensures ShownStatus(samples) != Paused
    ensures ShownStatus(samples) == WarmingUp <==> |Positives(LastN(samples, StatusWindow))| < WarmUpSamples
  {
    var active := Positives(LastN(samples, StatusWindow));
    if |active| >= WarmUpSamples {
      SumOfPositives(active);
    }
  }

  /** Fewer than four samples in all always read as warming up. */
  lemma FewSamplesWarmUp(samples: seq<int>)
    requires |samples| < WarmUpSamples
    ensures ShownStatus(samples) == WarmingUp
  {
  }
}
