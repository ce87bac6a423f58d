/**
 * DecimatingSampleFilter: reduces a stream of `sampleCount` samples to
 * `outputCount` samples. It keeps the last `W = ceil(sampleCount/outputCount)`
 * samples in a circular history addressed by `sampleNumber mod W`, and each
 * time its running counter crosses one output it emits either the incoming
 * STRING sample or the window's minimum or maximum, depending on whether the
 * oldest part of the window sums higher than the newest part.
 *
 * The pure functions below specify one emission (`Scan`, `CenterTime`,
 * `Emission`) and state what it means (the lemmas after them); the class
 * is the in-place algorithm, proved against them.
 */
module Decimation {
  import opened Base
  import opened Samples
  import opened Times
  import opened Csv

  /** One history entry: the sample as scanned, with its numeric coercion. */
  datatype SampleState = SampleState(opcode: Opcode, value: Value, doubleValue: real, time: DateTime)

  function Pow2(n: nat): (r: real)
    ensures r >= 1.0
    ensures n >= 1 ==> r >= 2.0
  {
    if n == 0 then 1.0 else 2.0 * Pow2(n - 1)
  }

  /** Raising the exponent by at least one at least doubles the power. */
  lemma {:induction false} Pow2Grows(a: nat, b: nat)
    requires b >= 1
    ensures Pow2(a + b) >= 2.0 * Pow2(a)
    decreases b
  {
    if b > 1 {
      Pow2Grows(a, b - 1);
    }
    assert Pow2(a + b) == 2.0 * Pow2(a + b - 1);
  }

  lemma InverseBelowOne(r: real)
    requires r >= 2.0
    ensures 0.0 < 1.0 / r < 1.0
  {
  }

  /** The binary exponents of the extreme doubles: 2^-1074 is the least positive double, 2^1024 bounds them all. */
  const MIN_EXPONENT: nat := 1074
  const MAX_EXPONENT: nat := 1024
  /** The doubles of exponent 1023 are spaced 2^(1023-52) = 2^971 apart. */
  const ULP_EXPONENT: nat := 971

  /** `Double.MIN_VALUE`, the smallest POSITIVE double: 2^-1074. */
  const DOUBLE_MIN_VALUE: real := 1.0 / Pow2(MIN_EXPONENT)

  /** `Double.MAX_VALUE`: (2 - 2^-52) * 2^1023 = 2^1024 - 2^971. */
  const DOUBLE_MAX_VALUE: real := Pow2(MAX_EXPONENT) - Pow2(ULP_EXPONENT)

  /** The two sentinels of the scan: Double.MIN_VALUE is positive but below 1, Double.MAX_VALUE at least 1. */
  lemma DoubleSentinels()
    ensures 0.0 < DOUBLE_MIN_VALUE < 1.0 <= DOUBLE_MAX_VALUE
  {
    SentinelBounds(ULP_EXPONENT, MAX_EXPONENT - ULP_EXPONENT, MIN_EXPONENT);
  }

  /** `2^-c` lies strictly between 0 and 1, and `2^(a+b) - 2^a` is at least 1, for `b, c >= 1`. */
  lemma SentinelBounds(a: nat, b: nat, c: nat)
    requires b >= 1 && c >= 1
    ensures 0.0 < 1.0 / Pow2(c)
    ensures 1.0 / Pow2(c) < 1.0
    ensures 1.0 <= Pow2(a + b) - Pow2(a)
  {
    Pow2Grows(a, b);
    InverseBelowOne(Pow2(c));
  }

  function Max(a: int, b: int): int { if a >= b then a else b }

  // ---------------------------------------------------------------------
  // Arithmetic facts about the counters and the circular index

  /** Adding the period does not change the slot. */
  lemma ModPeriod(x: int, w: int)
    requires w > 0
    ensures (x + w) % w == x % w
  {
    ModUnique(x + w, w, x / w + 1, x % w);
  }

  /** Two sample numbers closer than the period go to different slots. */
  lemma ModDistinct(n: int, d: int, w: int)
    requires 0 < d < w
    ensures (n + d) % w != n % w
  {
    var q, r := n / w, n % w;
    if r + d < w {
      ModUnique(n + d, w, q, r + d);
    } else {
      ModUnique(n + d, w, q + 1, r + d - w);
    }
  }

  // ---------------------------------------------------------------------
  // Construction-time quantities

  /** The constructor's guard: `outputCount <= 0 || sampleCount <= 0 || outputCount > sampleCount` throws. */
  predicate ValidArguments(outputCount: int, sampleCount: int)
  {
    !(outputCount <= 0 || sampleCount <= 0 || outputCount > sampleCount)
  }

  /**
   * `(int) Math.ceil((double) sampleCount / (double) outputCount)`. For int
   * operands the double quotient is never rounded onto an integer, so the
   * ceiling is the exact one.
   */
  function CeilSamplesPerOutput(outputCount: int, sampleCount: int): (w: int)
    requires ValidArguments(outputCount, sampleCount)
    ensures 1 <= w <= sampleCount
    ensures (w - 1) * outputCount < sampleCount <= w * outputCount
  {
    var w := (sampleCount + outputCount - 1) / outputCount;
    ModUnique(sampleCount + outputCount - 1, outputCount, w, (sampleCount + outputCount - 1) % outputCount);
    MulLeft(1, outputCount, w);
    w
  }

  /** How many slots each of the two sums covers. */
  function SamplesInAverage(w: int): (n: int)
    requires w >= 1
    ensures 1 <= n <= w
    ensures w > 1 ==> n < w
  {
    if w > 5 then w * 2 / 3 else Max(1, w - 1)
  }

  /** `samplesInAverage` as the source computes it: `ceilSamplesPerOutput * 2` is a wrapping `int` product. */
  function SamplesInAverageAsWritten(w: int32): (n: int)
    requires w >= 1
    ensures w < 0x4000_0000 ==> n == SamplesInAverage(w)
  {
    if w > 5 then JavaDiv(Wrap32(w * 2), 3) else Max(1, w - 1)
  }

  /**
   * One output per 2^30 samples is a valid configuration, yet the doubled
   * window size wraps to a negative `int`, so neither sum covers any slot.
   */
  lemma SamplesInAverageOverflows()
    ensures ValidArguments(1, 0x4000_0000)
    ensures CeilSamplesPerOutput(1, 0x4000_0000) == 0x4000_0000
    ensures SamplesInAverageAsWritten(0x4000_0000) == -715827882 < 0
  {
    assert Wrap32(0x8000_0000) == -0x8000_0000;
  }

  // ---------------------------------------------------------------------
  // One emission, specified on the history contents `h` and the current sample number

  /** The slot that holds sample number `n`. */
  function SlotOf(n: int, w: int): int
    requires w > 0
  {
    n % w
  }

  /** The slot scanned at step `i` of the loop: the sample `i` steps before the newest. */
  function AgeIndex(sn: int, w: int, i: int): (k: int)
    requires w > 0
    ensures 0 <= k < w
  {
    (sn + w - i) % w
  }

  /** The loop's variables. */
  datatype Extremes = Extremes(max: real, maxIndex: int, min: real, minIndex: int, firstSum: real, lastSum: real)

  const INITIAL: Extremes := Extremes(DOUBLE_MIN_VALUE, 0, DOUBLE_MAX_VALUE, 0, 0.0, 0.0)

  /** One iteration of the loop over the history; empty slots are skipped. */
  function ScanStep(acc: Extremes, slot: Option<SampleState>, index: int, i: int, samplesInAverage: int, samplesLeftOut: int): (r: Extremes)
    ensures slot.None? ==> r == acc
    ensures slot.Some? ==> var d := slot.value.doubleValue;
      && r.max >= acc.max && r.max >= d && (r.max == acc.max || r.max == d)
      && r.min <= acc.min && r.min <= d && (r.min == acc.min || r.min == d)
    ensures r.maxIndex == acc.maxIndex || r.maxIndex == index
    ensures r.minIndex == acc.minIndex || r.minIndex == index
  {
    match slot
    case None => acc
    case Some(s) =>
      var d := s.doubleValue;
      Extremes(
        if d > acc.max then d else acc.max,
        if d > acc.max then index else acc.maxIndex,
        if d < acc.min then d else acc.min,
        if d < acc.min then index else acc.minIndex,
        if i >= samplesLeftOut then acc.firstSum + d else acc.firstSum,
        if i < samplesInAverage then acc.lastSum + d else acc.lastSum)
  }

  /** The loop's variables after its first `i` iterations. */
  function Scan(h: seq<Option<SampleState>>, sn: int, i: int): (r: Extremes)
    requires |h| >= 1 && 0 <= i <= |h|
    ensures 0 <= r.maxIndex < |h| && 0 <= r.minIndex < |h|
  {
    if i == 0 then INITIAL
    else
      var w := |h|;
      var sia := SamplesInAverage(w);
      var k := AgeIndex(sn, w, i - 1);
      ScanStep(Scan(h, sn, i - 1), h[k], k, i - 1, sia, w - sia)
  }

  ghost predicate FullHistory(h: seq<Option<SampleState>>)
  {
    forall k :: 0 <= k < |h| ==> h[k].Some?
  }

  /** The emitted time: the midpoint of the oldest and the newest slot's times, as a long `>> 1`. */
  function CenterTime(h: seq<Option<SampleState>>, sn: int, lastTime: DateTime): DateTime
    requires |h| >= 1
  {
    var w := |h|;
    match h[(sn + w - (w - 1)) % w]
    case Some(first) => DateTime(ShiftRight1(Wrap64(first.time.millis + lastTime.millis)))
    case None => lastTime
  }

  /** The slot whose entry is emitted for a numeric sample: the minimum if the window trends down, else the maximum. */
  function ChosenIndex(h: seq<Option<SampleState>>, sn: int): (k: int)
    requires |h| >= 1
    ensures 0 <= k < |h|
  {
    var acc := Scan(h, sn, |h|);
    if acc.firstSum > acc.lastSum then acc.minIndex else acc.maxIndex
  }

  /** The `consumeSample` call made when the counter fires on sample number `sn`. */
  function Emission(h: seq<Option<SampleState>>, sn: int, incoming: SampleState): (c: ConsumeCall)
    requires |h| >= 1 && FullHistory(h)
    ensures c.sampleNumber == sn && c.time.Some?
    ensures incoming.opcode == STRING ==> c == ConsumeCall(sn, STRING, incoming.value, Some(incoming.time))
    ensures incoming.opcode != STRING ==>
      c.opcode == h[ChosenIndex(h, sn)].value.opcode && c.value == h[ChosenIndex(h, sn)].value.value
  {
    if incoming.opcode == STRING then ConsumeCall(sn, incoming.opcode, incoming.value, Some(incoming.time))
    else
      var chosen := h[ChosenIndex(h, sn)].value;
      ConsumeCall(sn, chosen.opcode, chosen.value, Some(CenterTime(h, sn, h[sn % |h|].value.time)))
  }

  // ---------------------------------------------------------------------
  // What the scan computes

  /** A slot is scanned at step `j` when it holds the sample `j` steps before the newest. */
  ghost predicate ValueAt(h: seq<Option<SampleState>>, sn: int, j: int, d: real)
    requires |h| >= 1
  {
    h[AgeIndex(sn, |h|, j)].Some? && h[AgeIndex(sn, |h|, j)].value.doubleValue == d
  }

  /**
   * After `i` steps, `max` bounds every scanned value; it stays Double.MIN_VALUE
   * with `maxIndex = 0` until some value exceeds it, and otherwise `maxIndex` is
   * the slot of the most recent sample that attains it (later ties lose).
   */
  lemma {:induction false} ScanMax(h: seq<Option<SampleState>>, sn: int, i: int)
    requires |h| >= 1 && 0 <= i <= |h|
    ensures var r := Scan(h, sn, i);
      && r.max >= DOUBLE_MIN_VALUE
      && (forall j :: 0 <= j < i && h[AgeIndex(sn, |h|, j)].Some? ==> h[AgeIndex(sn, |h|, j)].value.doubleValue <= r.max)
      && (r.max == DOUBLE_MIN_VALUE ==> r.maxIndex == 0)
      && (r.max > DOUBLE_MIN_VALUE ==>
            exists j :: 0 <= j < i && AgeIndex(sn, |h|, j) == r.maxIndex && ValueAt(h, sn, j, r.max) &&
              (forall j' :: 0 <= j' < j && h[AgeIndex(sn, |h|, j')].Some? ==> h[AgeIndex(sn, |h|, j')].value.doubleValue < r.max))
  {
    if i > 0 {
      ScanMax(h, sn, i - 1);
      var prev := Scan(h, sn, i - 1);
      var r := Scan(h, sn, i);
      var k := AgeIndex(sn, |h|, i - 1);
      if h[k].Some? && h[k].value.doubleValue > prev.max {
        assert ValueAt(h, sn, i - 1, r.max);
      } else if r.max > DOUBLE_MIN_VALUE {
        var j :| 0 <= j < i - 1 && AgeIndex(sn, |h|, j) == prev.maxIndex && ValueAt(h, sn, j, prev.max) &&
            forall j' :: 0 <= j' < j && h[AgeIndex(sn, |h|, j')].Some? ==> h[AgeIndex(sn, |h|, j')].value.doubleValue < prev.max;
        assert AgeIndex(sn, |h|, j) == r.maxIndex && ValueAt(h, sn, j, r.max);
      }
    }
  }

  /** The mirror image of ScanMax for `min`, which starts at Double.MAX_VALUE. */
  lemma {:induction false} ScanMin(h: seq<Option<SampleState>>, sn: int, i: int)
    requires |h| >= 1 && 0 <= i <= |h|
    ensures var r := Scan(h, sn, i);
      && r.min <= DOUBLE_MAX_VALUE
      && (forall j :: 0 <= j < i && h[AgeIndex(sn, |h|, j)].Some? ==> r.min <= h[AgeIndex(sn, |h|, j)].value.doubleValue)
      && (r.min == DOUBLE_MAX_VALUE ==> r.minIndex == 0)
      && (r.min < DOUBLE_MAX_VALUE ==>
            exists j :: 0 <= j < i && AgeIndex(sn, |h|, j) == r.minIndex && ValueAt(h, sn, j, r.min) &&
              (forall j' :: 0 <= j' < j && h[AgeIndex(sn, |h|, j')].Some? ==> r.min < h[AgeIndex(sn, |h|, j')].value.doubleValue))
  {
    if i > 0 {
      ScanMin(h, sn, i - 1);
      var prev := Scan(h, sn, i - 1);
      var r := Scan(h, sn, i);
      var k := AgeIndex(sn, |h|, i - 1);
      if h[k].Some? && h[k].value.doubleValue < prev.min {
        assert ValueAt(h, sn, i - 1, r.min);
      } else if r.min < DOUBLE_MAX_VALUE {
        var j :| 0 <= j < i - 1 && AgeIndex(sn, |h|, j) == prev.minIndex && ValueAt(h, sn, j, prev.min) &&
            forall j' :: 0 <= j' < j && h[AgeIndex(sn, |h|, j')].Some? ==> prev.min < h[AgeIndex(sn, |h|, j')].value.doubleValue;
        assert AgeIndex(sn, |h|, j) == r.minIndex && ValueAt(h, sn, j, r.min);
      }
    }
  }

  // ---------------------------------------------------------------------
  // The history as a window onto the stream of samples

  /** Each of the last `|h|` samples (numbered from 1) sits in slot `n mod |h|`. */
  ghost predicate RecentInSlots(h: seq<Option<SampleState>>, samples: seq<SampleState>)
  {
    |h| >= 1 &&
    forall n :: 1 <= n <= |samples| && |samples| - n < |h| ==> h[SlotOf(n, |h|)] == Some(samples[n - 1])
  }

  /** Writing the next sample into its slot keeps the last `|h|` samples in their slots. */
  lemma RecentAfterWrite(h: seq<Option<SampleState>>, samples: seq<SampleState>, x: SampleState)
    requires RecentInSlots(h, samples)
    ensures RecentInSlots(h[SlotOf(|samples| + 1, |h|) := Some(x)], samples + [x])
  {
    var w := |h|;
    var sn := |samples| + 1;
    var h' := h[SlotOf(sn, w) := Some(x)];
    var s' := samples + [x];
    forall n | 1 <= n <= |s'| && |s'| - n < w
      ensures h'[SlotOf(n, w)] == Some(s'[n - 1])
    {
      if n < sn {
        ModDistinct(n, sn - n, w);
        assert h[SlotOf(n, w)] == Some(samples[n - 1]);
      }
    }
  }

  /** With the whole window filled, scanning step `j` reads the sample `j` steps before the newest. */
  lemma WindowAt(h: seq<Option<SampleState>>, samples: seq<SampleState>, j: int)
    requires RecentInSlots(h, samples) && |samples| >= |h| && 0 <= j < |h|
    ensures h[AgeIndex(|samples|, |h|, j)] == Some(samples[|samples| - 1 - j])
  {
    var sn := |samples|;
    ModPeriod(sn - j, |h|);
    assert AgeIndex(sn, |h|, j) == SlotOf(sn - j, |h|);
  }

  /** The sum of the values of the samples `lo .. hi-1` steps before the newest. */
  function AgeSum(samples: seq<SampleState>, lo: int, hi: int): real
    requires 0 <= lo && hi <= |samples|
    decreases hi - lo
  {
    if hi <= lo then 0.0 else AgeSum(samples, lo, hi - 1) + samples[|samples| - hi].doubleValue
  }

  /**
   * With the window filled, `lastSum` is the sum of the `samplesInAverage`
   * newest samples and `firstSum` the sum of the `samplesInAverage` oldest
   * ones (those at least `samplesLeftOut` steps back).
   */
  lemma ScanSums(h: seq<Option<SampleState>>, samples: seq<SampleState>)
    requires RecentInSlots(h, samples) && |samples| >= |h|
    ensures var sia := SamplesInAverage(|h|);
      && Scan(h, |samples|, |h|).lastSum == AgeSum(samples, 0, sia)
      && Scan(h, |samples|, |h|).firstSum == AgeSum(samples, |h| - sia, |h|)
  {
    var w := |h|;
    var sia := SamplesInAverage(w);
    ScanSumsUpTo(h, samples, w);
  }

  lemma {:induction false} ScanSumsUpTo(h: seq<Option<SampleState>>, samples: seq<SampleState>, i: int)
    requires RecentInSlots(h, samples) && |samples| >= |h| && 0 <= i <= |h|
    ensures var sia := SamplesInAverage(|h|); var slo := |h| - sia;
      && Scan(h, |samples|, i).lastSum == AgeSum(samples, 0, if i < sia then i else sia)
      && Scan(h, |samples|, i).firstSum == AgeSum(samples, slo, if i < slo then slo else i)
  {
    if i > 0 {
      var w, sn := |h|, |samples|;
      var sia := SamplesInAverage(w);
      var prev := Scan(h, sn, i - 1);
      ScanSumsUpTo(h, samples, i - 1);
      WindowAt(h, samples, i - 1);
      var d := samples[sn - i].doubleValue;
      assert Scan(h, sn, i) == ScanStep(prev, Some(samples[sn - i]), AgeIndex(sn, w, i - 1), i - 1, sia, w - sia);
      assert Scan(h, sn, i).lastSum == if i - 1 < sia then prev.lastSum + d else prev.lastSum;
      assert Scan(h, sn, i).firstSum == if i - 1 >= w - sia then prev.firstSum + d else prev.firstSum;
    }
  }

  /** The samples from index `m` on have strictly rising values. */
  ghost predicate RisingFrom(samples: seq<SampleState>, m: int)
  {
    forall j :: m <= j && 0 <= j && j + 1 < |samples| ==> samples[j].doubleValue < samples[j + 1].doubleValue
  }

  /** The samples from index `m` on have strictly falling values. */
  ghost predicate FallingFrom(samples: seq<SampleState>, m: int)
  {
    forall j :: m <= j && 0 <= j && j + 1 < |samples| ==> samples[j].doubleValue > samples[j + 1].doubleValue
  }

  lemma {:induction false} Rising(samples: seq<SampleState>, m: int, a: int, b: int)
    requires RisingFrom(samples, m) && 0 <= m <= a < b < |samples|
    ensures samples[a].doubleValue < samples[b].doubleValue
    decreases b - a
  {
    if a + 1 < b {
      Rising(samples, m, a + 1, b);
    }
  }

  lemma {:induction false} Falling(samples: seq<SampleState>, m: int, a: int, b: int)
    requires FallingFrom(samples, m) && 0 <= m <= a < b < |samples|
    ensures samples[a].doubleValue > samples[b].doubleValue
    decreases b - a
  {
    if a + 1 < b {
      Falling(samples, m, a + 1, b);
    }
  }

  /** In a rising stretch, a run of samples outweighs the same run taken `shift` samples earlier. */
  lemma {:induction false} RisingSums(samples: seq<SampleState>, m: int, lo: int, hi: int, shift: int)
    requires 0 <= lo <= hi && shift >= 1 && hi + shift <= |samples| - m && 0 <= m && RisingFrom(samples, m)
    ensures lo < hi ==> AgeSum(samples, lo, hi) > AgeSum(samples, lo + shift, hi + shift)
    decreases hi - lo
  {
    if lo < hi {
      RisingSums(samples, m, lo, hi - 1, shift);
      Rising(samples, m, |samples| - hi - shift, |samples| - hi);
    }
  }

  /** In a falling stretch, a run of samples weighs less than the same run taken `shift` samples earlier. */
  lemma {:induction false} FallingSums(samples: seq<SampleState>, m: int, lo: int, hi: int, shift: int)
    requires 0 <= lo <= hi && shift >= 1 && hi + shift <= |samples| - m && 0 <= m && FallingFrom(samples, m)
    ensures lo < hi ==> AgeSum(samples, lo, hi) < AgeSum(samples, lo + shift, hi + shift)
    decreases hi - lo
  {
    if lo < hi {
      FallingSums(samples, m, lo, hi - 1, shift);
      Falling(samples, m, |samples| - hi - shift, |samples| - hi);
    }
  }

  // ---------------------------------------------------------------------
  // What one emission is, once the window is filled

  /** Every slot is scanned at some step of the loop. */
  lemma SlotScanned(sn: int, w: int, k: int)
    requires w >= 1 && 0 <= k < w
    ensures exists j :: 0 <= j < w && AgeIndex(sn, w, j) == k
  {
    var q, j := (sn - k) / w, (sn - k) % w;
    ModUnique(sn + w - j, w, q + 1, k);
    assert AgeIndex(sn, w, j) == k;
  }

  /** Once `|h|` samples have been written, no slot is empty. */
  lemma WindowFull(h: seq<Option<SampleState>>, samples: seq<SampleState>)
    requires RecentInSlots(h, samples) && |samples| >= |h|
    ensures FullHistory(h)
  {
    forall k | 0 <= k < |h| ensures h[k].Some? {
      SlotScanned(|samples|, |h|, k);
      var j :| 0 <= j < |h| && AgeIndex(|samples|, |h|, j) == k;
      WindowAt(h, samples, j);
    }
  }

  /** The emission carries the opcode and value of the sample `j` steps before the newest. */
  ghost predicate EmitsSampleAt(h: seq<Option<SampleState>>, samples: seq<SampleState>, incoming: SampleState, j: int)
    requires |h| >= 1 && FullHistory(h) && 0 <= j < |samples|
  {
    var c := Emission(h, |samples|, incoming);
    c.opcode == samples[|samples| - 1 - j].opcode && c.value == samples[|samples| - 1 - j].value
  }

  /** The emitted opcode and value are those of one of the last `|h|` samples: never an average. */
  lemma EmissionFromWindow(h: seq<Option<SampleState>>, samples: seq<SampleState>, incoming: SampleState)
    requires RecentInSlots(h, samples) && |samples| >= |h| && incoming.opcode != STRING
    ensures FullHistory(h)
    ensures exists j :: 0 <= j < |h| && EmitsSampleAt(h, samples, incoming, j)
  {
    var sn, w := |samples|, |h|;
    WindowFull(h, samples);
    var k := ChosenIndex(h, sn);
    SlotScanned(sn, w, k);
    var j :| 0 <= j < w && AgeIndex(sn, w, j) == k;
    WindowAt(h, samples, j);
    assert EmitsSampleAt(h, samples, incoming, j);
  }

  /** The emitted time, with the window filled: the two extreme samples' times summed as longs and shifted right once. */
  lemma CenterTimeOfWindow(h: seq<Option<SampleState>>, samples: seq<SampleState>, incoming: SampleState)
    requires RecentInSlots(h, samples) && |samples| >= |h| && incoming.opcode != STRING
    ensures FullHistory(h)
    ensures var oldest, newest := samples[|samples| - |h|], samples[|samples| - 1];
      Emission(h, |samples|, incoming).time == Some(DateTime(ShiftRight1(Wrap64(oldest.time.millis + newest.time.millis))))
  {
    var sn, w := |samples|, |h|;
    WindowFull(h, samples);
    WindowAt(h, samples, w - 1);
    WindowAt(h, samples, 0);
    ModPeriod(sn, w);
    assert AgeIndex(sn, w, w - 1) == (sn + w - (w - 1)) % w;
  }

  /** Absent long overflow, the emitted time lies between the oldest and the newest sample's time. */
  lemma CenterTimeBetween(first: int64, last: int64)
    requires first <= last
    requires -0x8000_0000_0000_0000 <= first + last < 0x8000_0000_0000_0000
    ensures first <= ShiftRight1(Wrap64(first + last)) <= last
  {
  }

  /** A window strictly rising over time (at least two slots) takes the maximum branch, and so emits its newest sample. */
  lemma RisingWindowEmitsNewest(h: seq<Option<SampleState>>, samples: seq<SampleState>, incoming: SampleState)
    requires RecentInSlots(h, samples) && |samples| >= |h| >= 2 && incoming.opcode != STRING
    requires RisingFrom(samples, |samples| - |h|)
    requires samples[|samples| - 1].doubleValue > DOUBLE_MIN_VALUE
    ensures FullHistory(h)
    ensures ChosenIndex(h, |samples|) == Scan(h, |samples|, |h|).maxIndex == SlotOf(|samples|, |h|)
    ensures Emission(h, |samples|, incoming).opcode == samples[|samples| - 1].opcode
    ensures Emission(h, |samples|, incoming).value == samples[|samples| - 1].value
  {
    WindowFull(h, samples);
    RisingTakesMaximum(h, samples);
    RisingMaximumIsNewest(h, samples);
  }

  lemma RisingTakesMaximum(h: seq<Option<SampleState>>, samples: seq<SampleState>)
    requires RecentInSlots(h, samples) && |samples| >= |h| >= 2
    requires RisingFrom(samples, |samples| - |h|)
    ensures ChosenIndex(h, |samples|) == Scan(h, |samples|, |h|).maxIndex
  {
    var sn, w := |samples|, |h|;
    var sia := SamplesInAverage(w);
    ScanSums(h, samples);
    RisingSums(samples, sn - w, 0, sia, w - sia);
  }

  lemma RisingMaximumIsNewest(h: seq<Option<SampleState>>, samples: seq<SampleState>)
    requires RecentInSlots(h, samples) && |samples| >= |h| >= 1
    requires RisingFrom(samples, |samples| - |h|)
    requires samples[|samples| - 1].doubleValue > DOUBLE_MIN_VALUE
    ensures Scan(h, |samples|, |h|).maxIndex == SlotOf(|samples|, |h|)
  {
    var sn, w := |samples|, |h|;
    ScanMax(h, sn, w);
    var r := Scan(h, sn, w);
    WindowAt(h, samples, 0);
    var j :| 0 <= j < w && AgeIndex(sn, w, j) == r.maxIndex && ValueAt(h, sn, j, r.max) &&
      (forall j' :: 0 <= j' < j && h[AgeIndex(sn, w, j')].Some? ==> h[AgeIndex(sn, w, j')].value.doubleValue < r.max);
    if j > 0 {
      WindowAt(h, samples, j);
      Rising(samples, sn - w, sn - 1 - j, sn - 1);
      assert false;
    }
    ModPeriod(sn, w);
    assert AgeIndex(sn, w, 0) == SlotOf(sn, w);
  }

  /** A window strictly falling over time (at least two slots) takes the minimum branch, and so emits its newest sample. */
  lemma FallingWindowEmitsNewest(h: seq<Option<SampleState>>, samples: seq<SampleState>, incoming: SampleState)
    requires RecentInSlots(h, samples) && |samples| >= |h| >= 2 && incoming.opcode != STRING
    requires FallingFrom(samples, |samples| - |h|)
    requires samples[|samples| - 1].doubleValue < DOUBLE_MAX_VALUE
    ensures FullHistory(h)
    ensures ChosenIndex(h, |samples|) == Scan(h, |samples|, |h|).minIndex == SlotOf(|samples|, |h|)
    ensures Emission(h, |samples|, incoming).opcode == samples[|samples| - 1].opcode
    ensures Emission(h, |samples|, incoming).value == samples[|samples| - 1].value
  {
    WindowFull(h, samples);
    FallingTakesMinimum(h, samples);
    FallingMinimumIsNewest(h, samples);
  }

  lemma FallingTakesMinimum(h: seq<Option<SampleState>>, samples: seq<SampleState>)
    requires RecentInSlots(h, samples) && |samples| >= |h| >= 2
    requires FallingFrom(samples, |samples| - |h|)
    ensures ChosenIndex(h, |samples|) == Scan(h, |samples|, |h|).minIndex
  {
    var sn, w := |samples|, |h|;
    var sia := SamplesInAverage(w);
    ScanSums(h, samples);
    FallingSums(samples, sn - w, 0, sia, w - sia);
  }

  lemma FallingMinimumIsNewest(h: seq<Option<SampleState>>, samples: seq<SampleState>)
    requires RecentInSlots(h, samples) && |samples| >= |h| >= 1
    requires FallingFrom(samples, |samples| - |h|)
    requires samples[|samples| - 1].doubleValue < DOUBLE_MAX_VALUE
    ensures Scan(h, |samples|, |h|).minIndex == SlotOf(|samples|, |h|)
  {
    var sn, w := |samples|, |h|;
    ScanMin(h, sn, w);
    var r := Scan(h, sn, w);
    WindowAt(h, samples, 0);
    var j :| 0 <= j < w && AgeIndex(sn, w, j) == r.minIndex && ValueAt(h, sn, j, r.min) &&
      (forall j' :: 0 <= j' < j && h[AgeIndex(sn, w, j')].Some? ==> r.min < h[AgeIndex(sn, w, j')].value.doubleValue);
    if j > 0 {
      WindowAt(h, samples, j);
      Falling(samples, sn - w, sn - 1 - j, sn - 1);
      assert false;
    }
    ModPeriod(sn, w);
    assert AgeIndex(sn, w, 0) == SlotOf(sn, w);
  }

  /** A window whose every value is at most Double.MIN_VALUE (zero or negative, say) never moves `maxIndex` off slot 0. */
  lemma NoPositiveValueKeepsSlotZero(h: seq<Option<SampleState>>, sn: int)
    requires |h| >= 1
    requires forall k :: 0 <= k < |h| && h[k].Some? ==> h[k].value.doubleValue <= DOUBLE_MIN_VALUE
    ensures Scan(h, sn, |h|).maxIndex == 0 && Scan(h, sn, |h|).max == DOUBLE_MIN_VALUE
  {
    ScanMax(h, sn, |h|);
  }

  // ---------------------------------------------------------------------
  // How many emissions

  /**
   * With the exact counter, `e` emissions and remainder `r` after `n` samples
   * mean `e = floor(n * outputCount / sampleCount)`; after `sampleCount`
   * samples that is exactly `outputCount`.
   */
  lemma EmissionCount(outputCount: int, sampleCount: int, n: int, e: int, r: int)
    requires ValidArguments(outputCount, sampleCount)
    requires 0 <= r < sampleCount && e * sampleCount + r == n * outputCount
    ensures e == n * outputCount / sampleCount && r == n * outputCount % sampleCount
    ensures n == sampleCount ==> e == outputCount && r == 0
  {
    ModUnique(n * outputCount, sampleCount, e, r);
    if n == sampleCount {
      ModUnique(n * outputCount, sampleCount, outputCount, 0);
    }
  }

  /** One more sample adds `outputCount` to the counter; firing moves `sampleCount` of it into one more emission. */
  lemma CounterStep(outputCount: int, sampleCount: int, e: int, r: int, n: int)
    requires e * sampleCount + r == n * outputCount
    ensures e * sampleCount + (r + outputCount) == (n + 1) * outputCount
    ensures (e + 1) * sampleCount + (r + outputCount - sampleCount) == (n + 1) * outputCount
  {
  }

  /** The first emission comes with sample number W: no emission before the window has been filled once. */
  lemma FirstEmissionAtWindowSize(outputCount: int, sampleCount: int, n: int)
    requires ValidArguments(outputCount, sampleCount) && n >= 0
    ensures n * outputCount / sampleCount >= 1 <==> n >= CeilSamplesPerOutput(outputCount, sampleCount)
  {
    var w := CeilSamplesPerOutput(outputCount, sampleCount);
    if n >= w {
      MulLeft(w, n, outputCount);
      ModUnique(n * outputCount, sampleCount, n * outputCount / sampleCount, n * outputCount % sampleCount);
    } else {
      MulLeft(n, w - 1, outputCount);
      ModUnique(n * outputCount, sampleCount, 0, n * outputCount);
    }
  }

  // ---------------------------------------------------------------------
  // The filter replayed on the samples it has received

  /** The history after `samples`, numbered from 1: all slots null, then sample `n` written into slot `n mod w`. */
  function History(samples: seq<SampleState>, w: int): (h: seq<Option<SampleState>>)
    requires w >= 1
    ensures |h| == w
  {
    if samples == [] then seq(w, _ => None)
    else History(samples[..|samples| - 1], w)[SlotOf(|samples|, w) := Some(samples[|samples| - 1])]
  }

  /** The replayed history holds the last `w` samples in their slots. */
  lemma {:induction false} HistoryRecent(samples: seq<SampleState>, w: int)
    requires w >= 1
    ensures RecentInSlots(History(samples, w), samples)
  {
    if samples != [] {
      var init := samples[..|samples| - 1];
      HistoryRecent(init, w);
      RecentAfterWrite(History(init, w), init, samples[|samples| - 1]);
      assert init + [samples[|samples| - 1]] == samples;
    }
  }

  /** The exact counter fires on sample number `n`: the counter before it, `(n-1) * outputCount mod sampleCount`, reaches `sampleCount`. */
  predicate Fires(outputCount: int, sampleCount: int, n: int)
    requires sampleCount > 0
  {
    (n - 1) * outputCount % sampleCount + outputCount >= sampleCount
  }

  /** The number of emissions `n * outputCount / sampleCount` goes up by one exactly on the samples where the counter fires. */
  lemma FiresStep(outputCount: int, sampleCount: int, n: int)
    requires ValidArguments(outputCount, sampleCount) && n >= 1
    ensures n * outputCount / sampleCount ==
      (n - 1) * outputCount / sampleCount + (if Fires(outputCount, sampleCount, n) then 1 else 0)
  {
    var e := (n - 1) * outputCount / sampleCount;
    var r := (n - 1) * outputCount % sampleCount;
    CounterStep(outputCount, sampleCount, e, r, n - 1);
    if Fires(outputCount, sampleCount, n) {
      ModUnique(n * outputCount, sampleCount, e + 1, r + outputCount - sampleCount);
    } else {
      ModUnique(n * outputCount, sampleCount, e, r + outputCount);
    }
  }

  /** The counter never fires before sample number W. */
  lemma FiresAfterWindow(outputCount: int, sampleCount: int, n: int)
    requires ValidArguments(outputCount, sampleCount) && n >= 1 && Fires(outputCount, sampleCount, n)
    ensures n >= CeilSamplesPerOutput(outputCount, sampleCount)
  {
    var x := (n - 1) * outputCount;
    MulLeft(0, n - 1, outputCount);
    var e := x / sampleCount;
    if e < 0 {
      MulLeft(e, -1, sampleCount);
    }
    FiresStep(outputCount, sampleCount, n);
    assert n * outputCount / sampleCount >= 1;
    FirstEmissionAtWindowSize(outputCount, sampleCount, n);
  }

  /**
   * Every consumer call the filter makes for `samples`, in order: the counter
   * is replayed over the samples, and on each sample where it fires, the
   * `Emission` for the history at that point.
   */
  function Outputs(samples: seq<SampleState>, outputCount: int, sampleCount: int): seq<ConsumeCall>
    requires ValidArguments(outputCount, sampleCount)
  {
    if samples == [] then []
    else
      var n := |samples|;
      var w := CeilSamplesPerOutput(outputCount, sampleCount);
      var previous := Outputs(samples[..n - 1], outputCount, sampleCount);
      if Fires(outputCount, sampleCount, n) then
        FiringHistoryFull(samples, outputCount, sampleCount);
        previous + [Emission(History(samples, w), n, samples[n - 1])]
      else previous
  }

  /** When the counter fires, the history is full, so an emission can be made. */
  lemma FiringHistoryFull(samples: seq<SampleState>, outputCount: int, sampleCount: int)
    requires ValidArguments(outputCount, sampleCount) && samples != []
    ensures Fires(outputCount, sampleCount, |samples|) ==>
      FullHistory(History(samples, CeilSamplesPerOutput(outputCount, sampleCount)))
  {
    if Fires(outputCount, sampleCount, |samples|) {
      var w := CeilSamplesPerOutput(outputCount, sampleCount);
      FiresAfterWindow(outputCount, sampleCount, |samples|);
      HistoryRecent(samples, w);
      WindowFull(History(samples, w), samples);
    }
  }

  /** There are `|samples| * outputCount / sampleCount` calls, one per output the exact counter completes, and each carries a time. */
  lemma {:induction false} OutputsCount(samples: seq<SampleState>, outputCount: int, sampleCount: int)
    requires ValidArguments(outputCount, sampleCount)
    ensures var calls := Outputs(samples, outputCount, sampleCount);
      && |calls| == |samples| * outputCount / sampleCount
      && forall k :: 0 <= k < |calls| ==> calls[k].time.Some?
  {
    if samples != [] {
      var n := |samples|;
      OutputsCount(samples[..n - 1], outputCount, sampleCount);
      FiresStep(outputCount, sampleCount, n);
      var previous := Outputs(samples[..n - 1], outputCount, sampleCount);
      var calls := Outputs(samples, outputCount, sampleCount);
      assert calls[..|previous|] == previous;
      forall k | 0 <= k < |calls| ensures calls[k].time.Some? {
        if k < |previous| {
          assert calls[k] == previous[k];
        }
      }
    }
  }

  /** More samples only add calls: the calls for a prefix are a prefix of the calls. */
  lemma {:induction false} OutputsPrefix(samples: seq<SampleState>, more: seq<SampleState>, outputCount: int, sampleCount: int)
    requires ValidArguments(outputCount, sampleCount)
    ensures var a := Outputs(samples, outputCount, sampleCount); var b := Outputs(samples + more, outputCount, sampleCount);
      |a| <= |b| && b[..|a|] == a
    decreases |more|
  {
    if more == [] {
      assert samples + more == samples;
    } else {
      var init := more[..|more| - 1];
      OutputsPrefix(samples, init, outputCount, sampleCount);
      assert (samples + more)[..|samples + more| - 1] == samples + init;
      OutputsSnoc(samples + more, outputCount, sampleCount);
      var a := Outputs(samples, outputCount, sampleCount);
      var c := Outputs(samples + init, outputCount, sampleCount);
      var b := Outputs(samples + more, outputCount, sampleCount);
      assert b[..|c|] == c && c[..|a|] == a;
      assert b[..|a|] == b[..|c|][..|a|];
    }
  }

  /** One more sample adds at most one call, after the earlier ones. */
  lemma OutputsSnoc(samples: seq<SampleState>, outputCount: int, sampleCount: int)
    requires ValidArguments(outputCount, sampleCount) && samples != []
    ensures var a := Outputs(samples[..|samples| - 1], outputCount, sampleCount); var b := Outputs(samples, outputCount, sampleCount);
      |a| <= |b| && b[..|a|] == a
  {
  }

  // ---------------------------------------------------------------------
  // The filter object

  class DecimatingSampleFilter {
    const startTime: Option<DateTime>
    const endTime: Option<DateTime>
    const outputCount: int
    const sampleCount: int
    /** W, the history length. */
    const ceilSamplesPerOutput: int
    const sampleConsumer: CSVSampleConsumer
    const filterHistory: array<Option<SampleState>>
    /** `SampleCoder.getDoubleValue`, which is not part of this model. */
    const getDoubleValue: (Opcode, Value) -> real

    /** The source's `runningSum`, scaled by `sampleCount`: it grows by `outputCount` per sample and fires at `sampleCount`. */
    var runningSum: int
    var sampleNumber: int
    /** Every sample received, in order. */
    ghost var samples: seq<SampleState>
    /** Every call made to the consumer, in order. */
    ghost var outputs: seq<ConsumeCall>

    ghost predicate Valid()
      reads this, filterHistory
    {
      && ValidArguments(outputCount, sampleCount)
      && ceilSamplesPerOutput == CeilSamplesPerOutput(outputCount, sampleCount)
      && filterHistory.Length == ceilSamplesPerOutput
      && 0 <= runningSum < sampleCount
      && sampleNumber == |samples|
      && |outputs| * sampleCount + runningSum == sampleNumber * outputCount
      && RecentInSlots(filterHistory[..], samples)
      && filterHistory[..] == History(samples, ceilSamplesPerOutput)
      && outputs == Outputs(samples, outputCount, sampleCount)
    }

    constructor Init(startTime: Option<DateTime>, endTime: Option<DateTime>, outputCount: int, sampleCount: int,
                     sampleConsumer: CSVSampleConsumer, getDoubleValue: (Opcode, Value) -> real)
      requires ValidArguments(outputCount, sampleCount)
      ensures Valid() && fresh(filterHistory)
      ensures this.startTime == startTime && this.endTime == endTime
      ensures this.outputCount == outputCount && this.sampleCount == sampleCount
      ensures this.sampleConsumer == sampleConsumer && this.getDoubleValue == getDoubleValue
      ensures runningSum == 0 && sampleNumber == 0 && samples == [] && outputs == []
      ensures forall k :: 0 <= k < filterHistory.Length ==> filterHistory[k].None?
    {
      this.startTime := startTime;
      this.endTime := endTime;
      this.outputCount := outputCount;
      this.sampleCount := sampleCount;
      this.sampleConsumer := sampleConsumer;
      this.getDoubleValue := getDoubleValue;
      var w := CeilSamplesPerOutput(outputCount, sampleCount);
      ceilSamplesPerOutput := w;
      filterHistory := new Option<SampleState>[w](_ => None);
      runningSum := 0;
      sampleNumber := 0;
      samples := [];
      outputs := [];
      new;
      assert filterHistory[..] == History([], w);
    }

    /** The Java constructor: it throws IllegalArgumentException exactly for the invalid counts. */
    static method Create(startTime: Option<DateTime>, endTime: Option<DateTime>, outputCount: int32, sampleCount: int32,
                         sampleConsumer: CSVSampleConsumer, getDoubleValue: (Opcode, Value) -> real)
      returns (r: Result<DecimatingSampleFilter>)
      ensures r.Err? <==> outputCount <= 0 || sampleCount <= 0 || outputCount > sampleCount
      ensures r.Err? ==> r.exception == "IllegalArgumentException"
      ensures r.Ok? ==> var f := r.value;
        && fresh(f) && fresh(f.filterHistory) && f.Valid()
        && f.outputCount == outputCount && f.sampleCount == sampleCount && f.sampleConsumer == sampleConsumer
        && 1 <= f.filterHistory.Length <= sampleCount
        && f.startTime == startTime && f.endTime == endTime && f.getDoubleValue == getDoubleValue
        && f.sampleNumber == 0 && f.runningSum == 0 && f.outputs == []
    {
      if outputCount <= 0 || sampleCount <= 0 || outputCount > sampleCount {
        return Err("IllegalArgumentException");
      }
      var f := new DecimatingSampleFilter.Init(startTime, endTime, outputCount, sampleCount, sampleConsumer, getDoubleValue);
      return Ok(f);
    }

    /**
     * The loop of `processOneSample` over the history, newest slot first:
     * running maximum and minimum with their slots, and the sums over the
     * newest and the oldest `samplesInAverage` steps.
     */
    method ScanHistory() returns (max: real, maxIndex: int, min: real, minIndex: int, firstSum: real, lastSum: real)
      requires 1 <= filterHistory.Length
      ensures Extremes(max, maxIndex, min, minIndex, firstSum, lastSum) == Scan(filterHistory[..], sampleNumber, filterHistory.Length)
    {
      var w := filterHistory.Length;
      var samplesInAverage := SamplesInAverage(w);
      var samplesLeftOut := w - samplesInAverage;
      max, maxIndex, minIndex, min := DOUBLE_MIN_VALUE, 0, 0, DOUBLE_MAX_VALUE;
      firstSum, lastSum := 0.0, 0.0;
      for i := 0 to w
        invariant Extremes(max, maxIndex, min, minIndex, firstSum, lastSum) == Scan(filterHistory[..], sampleNumber, i)
      {
        ghost var before := Extremes(max, maxIndex, min, minIndex, firstSum, lastSum);
        var index := (sampleNumber + w - i) % w;
        assert index == AgeIndex(sampleNumber, w, i);
        var sample := filterHistory[index];
        if sample.Some? {
          var doubleValue := sample.value.doubleValue;
          if doubleValue > max {
            max := doubleValue;
            maxIndex := index;
          }
          if doubleValue < min {
            min := doubleValue;
            minIndex := index;
          }
          if i < samplesInAverage {
            lastSum := lastSum + doubleValue;
          }
          if i >= samplesLeftOut {
            firstSum := firstSum + doubleValue;
          }
        }
        assert Extremes(max, maxIndex, min, minIndex, firstSum, lastSum) == ScanStep(before, sample, index, i, samplesInAverage, samplesLeftOut);
      }
    }

    /**
     * Stores the sample in slot `sampleNumber mod W` (the counter counts from 1)
     * and, when the counter crosses one output, makes exactly one consumer call:
     * the STRING sample itself, or the window's minimum or maximum at the
     * window's centre time.
     */
    method ProcessOneSample(time: DateTime, opcode: Opcode, value: Value)
      requires Valid() && sampleConsumer.Valid()
      modifies this, filterHistory, sampleConsumer
      ensures Valid() && sampleConsumer.Valid()
      ensures sampleNumber == old(sampleNumber) + 1
      ensures samples == old(samples) + [SampleState(opcode, value, getDoubleValue(opcode, value), time)]
      ensures filterHistory[..] == old(filterHistory[..])[SlotOf(sampleNumber, ceilSamplesPerOutput) := Some(samples[|samples| - 1])]
      ensures var fired := old(runningSum) + outputCount >= sampleCount;
        && runningSum == old(runningSum) + outputCount - (if fired then sampleCount else 0)
        && (fired ==> sampleNumber >= ceilSamplesPerOutput && FullHistory(filterHistory[..]))
        && var emitted := if fired then [Emission(filterHistory[..], sampleNumber, samples[|samples| - 1])] else [];
        && outputs == old(outputs) + emitted
        && sampleConsumer.calls == old(sampleConsumer.calls) + emitted
    {
      sampleNumber := sampleNumber + 1;
      var sampleState := SampleState(opcode, value, getDoubleValue(opcode, value), time);
      var historyIndex := sampleNumber % filterHistory.Length;
      RecentAfterWrite(filterHistory[..], samples, sampleState);
      filterHistory[historyIndex] := Some(sampleState);
      samples := samples + [sampleState];
      assert samples[..|samples| - 1] == old(samples);
      CounterStep(outputCount, sampleCount, |outputs|, runningSum, sampleNumber - 1);
      ModUnique((sampleNumber - 1) * outputCount, sampleCount, |outputs|, runningSum);
      runningSum := runningSum + outputCount;
      assert filterHistory[..] == History(samples, ceilSamplesPerOutput);
      assert Fires(outputCount, sampleCount, sampleNumber) <==> runningSum >= sampleCount;
      if runningSum >= sampleCount {
        runningSum := runningSum - sampleCount;
        EmissionCount(outputCount, sampleCount, sampleNumber, |outputs| + 1, runningSum);
        FirstEmissionAtWindowSize(outputCount, sampleCount, sampleNumber);
        WindowFull(filterHistory[..], samples);
        ghost var call := Emission(filterHistory[..], sampleNumber, sampleState);
        assert Outputs(samples, outputCount, sampleCount) == outputs + [call];
        Emit(sampleState);
        outputs := outputs + [call];
      } else {
        assert Outputs(samples, outputCount, sampleCount) == outputs;
      }
    }

    /** The consumer call made when the counter fires: the STRING sample itself, or the window minimum or maximum. */
    method Emit(incoming: SampleState)
      requires 1 <= filterHistory.Length && FullHistory(filterHistory[..]) && sampleConsumer.Valid()
      modifies sampleConsumer
      ensures sampleConsumer.Valid()
      ensures sampleConsumer.calls == old(sampleConsumer.calls) + [Emission(filterHistory[..], sampleNumber, incoming)]
    {
      if incoming.opcode == STRING {
        sampleConsumer.ConsumeSample(sampleNumber, incoming.opcode, incoming.value, Some(incoming.time));
      } else {
        var w := filterHistory.Length;
        ghost var h := filterHistory[..];
        var max, maxIndex, min, minIndex, firstSum, lastSum := ScanHistory();
        var firstSample := filterHistory[(sampleNumber + w - (w - 1)) % w];
        var lastSample := filterHistory[sampleNumber % w];
        var lastTime := lastSample.value.time;
        var centerTime := if firstSample.Some? then DateTime(ShiftRight1(Wrap64(firstSample.value.time.millis + lastTime.millis))) else lastTime;
        assert centerTime == CenterTime(h, sampleNumber, h[sampleNumber % w].value.time);
        var chosen: SampleState;
        if firstSum > lastSum {
          // the window trends down: the minimum
          chosen := filterHistory[minIndex].value;
        } else {
          // the window trends up: the maximum
          chosen := filterHistory[maxIndex].value;
        }
        assert chosen == h[ChosenIndex(h, sampleNumber)].value;
        sampleConsumer.ConsumeSample(sampleNumber, chosen.opcode, chosen.value, Some(centerTime));
      }
    }
  }
}
