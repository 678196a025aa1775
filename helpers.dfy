/** Signal-analysis helpers of the DTMF decoder: the Goertzel filter bank,
    snapping a measured frequency to a table of canonical frequencies, and
    picking the two strongest bins of a spectrum.

    All arithmetic is over exact reals. The trigonometric coefficients enter as
    parameters: `cos2pi(x)` and `sin2pi(x)` stand for cos(2*pi*x) and sin(2*pi*x). */
module Helpers {
  import opened Wrappers

  /** A requested frequency range `(f_start, f_end)`, in Hz. */
  type Range = (real, real)

  /** The `(real part, imag part, power)` triple of one DFT term. */
  datatype BinResult = BinResult(re: real, im: real, power: real)

  /** What `goertzel` returns: the frequency of every computed bin and, at the
      same position, its result. */
  datatype Spectrum = Spectrum(freqs: seq<real>, results: seq<BinResult>)

  /** The two exceptions `goertzel` raises. */
  datatype GoertzelError =
    | ZeroDivision                   // a float division by zero: empty window, or zero sample rate
    | FrequencyOutOfRange(kEnd: int) // the ValueError raised for a range whose top bin is too high

  /** A measured `[frequency, energy]` pair. */
  datatype Tone = Tone(freq: real, energy: real)

  // ------------------------------------------------------------------
  // Bin selection
  // ------------------------------------------------------------------

  /** `math.ceil`. */
  function Ceil(x: real): (r: int)
    ensures r as real - 1.0 < x <= r as real
  {
    -((-x).Floor)
  }

  /** `int(math.floor(f_start / f_step))`. */
  function KStart(range: Range, fStep: real): int
    requires fStep != 0.0
  {
    (range.0 / fStep).Floor
  }

  /** `int(math.ceil(f_end / f_step))`. */
  function KEnd(range: Range, fStep: real): int
    requires fStep != 0.0
  {
    Ceil(range.1 / fStep)
  }

  /** Python's `range(lo, hi)`, as a set. */
  function Interval(lo: int, hi: int): (s: set<int>)
    ensures forall k :: k in s <==> lo <= k < hi
    decreases hi - lo
  {
    if lo >= hi then {} else {lo} + Interval(lo + 1, hi)
  }

  /** Bin `k` lies in the half-open bin interval of one of the ranges. */
  ghost predicate InSomeRange(ranges: seq<Range>, fStep: real, k: int)
    requires fStep != 0.0
  {
    exists i :: 0 <= i < |ranges| && KStart(ranges[i], fStep) <= k < KEnd(ranges[i], fStep)
  }

  /** The first loop of `goertzel`: the union of the bins of the ranges, or
      the error raised by the first range that fails. */
  function SelectBins(ranges: seq<Range>, fStep: real, windowSize: int): Result<set<int>, GoertzelError>
    decreases |ranges|
  {
    if |ranges| == 0 then Success({})
    else
      var last := ranges[|ranges| - 1];
      match SelectBins(ranges[..|ranges| - 1], fStep, windowSize)
      case Failure(e) => Failure(e)
      case Success(bins) =>
        if fStep == 0.0 then Failure(ZeroDivision)
        else if KEnd(last, fStep) > windowSize - 1 then Failure(FrequencyOutOfRange(KEnd(last, fStep)))
        else Success(bins + Interval(KStart(last, fStep), KEnd(last, fStep)))
  }

  /** With a zero frequency step the first range raises `ZeroDivisionError`. */
  lemma {:induction false} SelectBinsZeroStep(ranges: seq<Range>, windowSize: int)
    ensures SelectBins(ranges, 0.0, windowSize)
         == if |ranges| == 0 then Success({}) else Failure(ZeroDivision)
    decreases |ranges|
  {
    if |ranges| > 0 {
      SelectBinsZeroStep(ranges[..|ranges| - 1], windowSize);
    }
  }

  /** The selection fails exactly when some range's top bin exceeds the last
      index of the window, and it reports the first such range. */
  lemma {:induction false} SelectBinsFailure(ranges: seq<Range>, fStep: real, windowSize: int)
    requires fStep != 0.0
    ensures SelectBins(ranges, fStep, windowSize).Failure? <==>
              exists i :: 0 <= i < |ranges| && KEnd(ranges[i], fStep) > windowSize - 1
    ensures SelectBins(ranges, fStep, windowSize).Failure? ==>
      exists i :: 0 <= i < |ranges| && KEnd(ranges[i], fStep) > windowSize - 1
        && SelectBins(ranges, fStep, windowSize).error == FrequencyOutOfRange(KEnd(ranges[i], fStep))
        && forall j :: 0 <= j < i ==> KEnd(ranges[j], fStep) <= windowSize - 1
    decreases |ranges|
  {
    if |ranges| > 0 {
      var prefix := ranges[..|ranges| - 1];
      SelectBinsFailure(prefix, fStep, windowSize);
      assert forall i :: 0 <= i < |prefix| ==> prefix[i] == ranges[i];
      match SelectBins(prefix, fStep, windowSize)
      case Failure(e) =>
        var i :| 0 <= i < |prefix| && KEnd(prefix[i], fStep) > windowSize - 1
          && e == FrequencyOutOfRange(KEnd(prefix[i], fStep))
          && forall j :: 0 <= j < i ==> KEnd(prefix[j], fStep) <= windowSize - 1;
        assert KEnd(ranges[i], fStep) > windowSize - 1;
      case Success(bins) =>
        assert forall j :: 0 <= j < |prefix| ==> KEnd(ranges[j], fStep) <= windowSize - 1;
        if KEnd(ranges[|ranges| - 1], fStep) > windowSize - 1 {
          assert KEnd(ranges[|ranges| - 1], fStep) > windowSize - 1;
        }
    }
  }

  /** On success the bins are the union of the ranges' half-open bin
      intervals, each bin once. */
  lemma {:induction false} SelectBinsUnion(ranges: seq<Range>, fStep: real, windowSize: int)
    requires fStep != 0.0
    requires SelectBins(ranges, fStep, windowSize).Success?
    ensures forall k :: k in SelectBins(ranges, fStep, windowSize).value <==> InSomeRange(ranges, fStep, k)
    decreases |ranges|
  {
    if |ranges| > 0 {
      var prefix := ranges[..|ranges| - 1];
      var bins := SelectBins(prefix, fStep, windowSize).value;
      SelectBinsUnion(prefix, fStep, windowSize);
      var r := SelectBins(ranges, fStep, windowSize);
      forall k
        ensures k in r.value <==> InSomeRange(ranges, fStep, k)
      {
        if k in r.value && k !in bins {
          assert KStart(ranges[|ranges| - 1], fStep) <= k < KEnd(ranges[|ranges| - 1], fStep);
        }
        if k in bins {
          var i :| 0 <= i < |prefix| && KStart(prefix[i], fStep) <= k < KEnd(prefix[i], fStep);
          assert prefix[i] == ranges[i];
        }
        if InSomeRange(ranges, fStep, k) {
          var i :| 0 <= i < |ranges| && KStart(ranges[i], fStep) <= k < KEnd(ranges[i], fStep);
          if i < |prefix| {
            assert prefix[i] == ranges[i];
            assert InSomeRange(prefix, fStep, k);
          }
        }
      }
    }
  }

  /** Once a prefix of the ranges has failed, the later ranges are never
      looked at: the whole selection fails with the same error. */
  lemma {:induction false} SelectBinsFailureSticks(ranges: seq<Range>, fStep: real, windowSize: int, i: nat)
    requires i <= |ranges|
    requires SelectBins(ranges[..i], fStep, windowSize).Failure?
    ensures SelectBins(ranges, fStep, windowSize) == SelectBins(ranges[..i], fStep, windowSize)
    decreases |ranges| - i
  {
    if i == |ranges| {
      assert ranges[..i] == ranges;
    } else {
      assert ranges[..i + 1][..i] == ranges[..i];
      SelectBinsFailureSticks(ranges, fStep, windowSize, i + 1);
    }
  }

  // ------------------------------------------------------------------
  // Ascending order of a bin set
  // ------------------------------------------------------------------

  lemma {:induction false} MinimumExists(s: set<int>)
    requires s != {}
    ensures exists m :: m in s && forall x :: x in s ==> m <= x
    decreases |s|
  {
    if forall x :: x !in s {
      assert false;
    }
    var y :| y in s;
    var rest := s - {y};
    if rest == {} {
      forall x | x in s
        ensures y <= x
      {
        assert x !in rest;
      }
    } else {
      MinimumExists(rest);
      var m :| m in rest && forall x :: x in rest ==> m <= x;
      var least := if y < m then y else m;
      forall x | x in s
        ensures least <= x
      {
        if x != y {
          assert x in rest;
        }
      }
      assert least in s;
    }
  }

  ghost function Minimum(s: set<int>): (m: int)
    requires s != {}
    ensures m in s && forall x :: x in s ==> m <= x
  {
    MinimumExists(s);
    var m :| m in s && forall x :: x in s ==> m <= x;
    m
  }

  ghost predicate StrictlyIncreasing(s: seq<int>)
  {
    forall i, j :: 0 <= i < j < |s| ==> s[i] < s[j]
  }

  /** The bins of a set in ascending order: the order in which the model's
      `goertzel` visits them. */
  ghost function Ascending(s: set<int>): (r: seq<int>)
    ensures StrictlyIncreasing(r)
    ensures |r| == |s|
    ensures forall k :: k in r <==> k in s
    decreases |s|
  {
    if s == {} then []
    else
      var m := Minimum(s);
      [m] + Ascending(s - {m})
  }

  /** A strictly increasing sequence is determined by its elements. */
  lemma {:induction false} AscendingUnique(a: seq<int>, b: seq<int>)
    requires StrictlyIncreasing(a) && StrictlyIncreasing(b)
    requires forall k :: k in a <==> k in b
    ensures a == b
    decreases |a|
  {
    assert |b| > 0 ==> b[0] in b;
    if |a| > 0 {
      assert a[0] in a;
      assert a[0] in b;
      assert b[0] in a;
      assert a[0] == b[0];
      forall k
        ensures k in a[1..] <==> k in b[1..]
      {
        if k in a[1..] {
          assert k in a && k != a[0];
        }
        if k in b[1..] {
          assert k in b && k != b[0];
        }
      }
      AscendingUnique(a[1..], b[1..]);
    }
  }

  // ------------------------------------------------------------------
  // The Goertzel recurrence
  // ------------------------------------------------------------------

  /** One step of the recurrence: `samples[n] + w_real * d1 - d2`. */
  function RecurrenceStep(sample: real, wReal: real, d1: real, d2: real): real
  {
    sample + wReal * d1 - d2
  }

  /** The loop state `(d1, d2)` after the recurrence has consumed the samples. */
  function Recurrence(samples: seq<real>, wReal: real): (real, real)
    decreases |samples|
  {
    if |samples| == 0 then (0.0, 0.0)
    else
      var state := Recurrence(samples[..|samples| - 1], wReal);
      (RecurrenceStep(samples[|samples| - 1], wReal, state.0, state.1), state.0)
  }

  /** Reference definition of the second-order recurrence:
      y(n) = s[n-1] + w * y(n-1) - y(n-2), with y(0) = y(-1) = 0. */
  function Y(samples: seq<real>, w: real, n: int): real
    requires n <= |samples|
    decreases n
  {
    if n <= 0 then 0.0 else samples[n - 1] + w * Y(samples, w, n - 1) - Y(samples, w, n - 2)
  }

  lemma {:induction false} YPrefix(samples: seq<real>, w: real, m: nat, n: int)
    requires n <= m <= |samples|
    ensures Y(samples, w, n) == Y(samples[..m], w, n)
    decreases n
  {
    if n > 0 {
      YPrefix(samples, w, m, n - 1);
      YPrefix(samples, w, m, n - 2);
    }
  }

  /** The loop leaves `(d1, d2) = (y(N), y(N-1))`. */
  lemma {:induction false} RecurrenceIsSecondOrder(samples: seq<real>, w: real)
    ensures Recurrence(samples, w) == (Y(samples, w, |samples|), Y(samples, w, |samples| - 1))
    decreases |samples|
  {
    if |samples| > 0 {
      var n := |samples|;
      var prefix := samples[..n - 1];
      RecurrenceIsSecondOrder(prefix, w);
      YPrefix(samples, w, n - 1, n - 1);
      YPrefix(samples, w, n - 1, n - 2);
      assert Recurrence(prefix, w) == (Y(samples, w, n - 1), Y(samples, w, n - 2));
      assert Y(samples, w, n) == samples[n - 1] + w * Y(samples, w, n - 1) - Y(samples, w, n - 2);
      assert samples[..|samples| - 1] == prefix;
      assert Recurrence(samples, w).1 == Y(samples, w, n - 1);
      assert Recurrence(samples, w).0 == Y(samples, w, n);
    }
  }

  /** The result triple computed from the final loop state. */
  function Term(samples: seq<real>, wReal: real, wImag: real): BinResult
  {
    var state := Recurrence(samples, wReal);
    Coefficients(state.0, state.1, wReal, wImag)
  }

  /** `(0.5*w_real*d1 - d2, w_imag*d1, d2**2 + d1**2 - w_real*d1*d2)`. */
  function Coefficients(d1: real, d2: real, wReal: real, wImag: real): BinResult
  {
    BinResult(0.5 * wReal * d1 - d2, wImag * d1, d2 * d2 + d1 * d1 - wReal * d1 * d2)
  }

  lemma {:induction false} RecurrenceOfSilence(samples: seq<real>, w: real)
    requires forall i :: 0 <= i < |samples| ==> samples[i] == 0.0
    ensures Recurrence(samples, w) == (0.0, 0.0)
    decreases |samples|
  {
    if |samples| > 0 {
      RecurrenceOfSilence(samples[..|samples| - 1], w);
    }
  }

  /** An all-zero window has zero real part, imaginary part and power at every bin. */
  lemma SilentWindow(samples: seq<real>, wReal: real, wImag: real)
    requires forall i :: 0 <= i < |samples| ==> samples[i] == 0.0
    ensures Term(samples, wReal, wImag) == BinResult(0.0, 0.0, 0.0)
  {
    RecurrenceOfSilence(samples, wReal);
  }

  /** When the coefficients are 2cos and sin of one angle (cos^2 + sin^2 = 1),
      the reported power is the squared magnitude of the reported complex
      term, hence never negative. */
  lemma PowerIsSquaredMagnitude(samples: seq<real>, wReal: real, wImag: real)
    requires wReal * wReal + 4.0 * wImag * wImag == 4.0
    ensures var t := Term(samples, wReal, wImag); t.power == t.re * t.re + t.im * t.im
    ensures Term(samples, wReal, wImag).power >= 0.0
  {
    var (d1, d2) := Recurrence(samples, wReal);
    var t := Term(samples, wReal, wImag);
    calc {
      t.re * t.re + t.im * t.im;
      (0.5 * wReal * d1 - d2) * (0.5 * wReal * d1 - d2) + (wImag * d1) * (wImag * d1);
      (wReal * wReal + 4.0 * wImag * wImag) / 4.0 * d1 * d1 - wReal * d1 * d2 + d2 * d2;
      { assert wReal * wReal + 4.0 * wImag * wImag == 4.0; }
      d1 * d1 - wReal * d1 * d2 + d2 * d2;
      t.power;
    }
  }

  /** `k / window_size`: the bin's frequency as a fraction of the sample rate. */
  function NormalizedFrequency(k: int, windowSize: int): real
    requires windowSize > 0
  {
    k as real / windowSize as real
  }

  /** `k * sample_rate / window_size`: the frequency of bin `k`, in Hz. */
  function BinFrequency(k: int, sampleRate: real, windowSize: int): real
    requires windowSize > 0
  {
    k as real * sampleRate / windowSize as real
  }

  /** The Goertzel term of bin `k` over the window. */
  function BinTerm(samples: seq<real>, k: int, cos2pi: real -> real, sin2pi: real -> real): BinResult
    requires |samples| > 0
  {
    var f := NormalizedFrequency(k, |samples|);
    Term(samples, 2.0 * cos2pi(f), sin2pi(f))
  }

  /** The spectrum `sp` holds, in the order of `bins`, each bin's frequency
      and its Goertzel term. */
  ghost predicate IsSpectrumOf(sp: Spectrum, samples: seq<real>, sampleRate: real, bins: seq<int>,
                               cos2pi: real -> real, sin2pi: real -> real)
    requires |samples| > 0
  {
    |sp.freqs| == |bins| && |sp.results| == |bins|
    && forall i :: 0 <= i < |bins| ==>
         sp.freqs[i] == BinFrequency(bins[i], sampleRate, |samples|)
         && sp.results[i] == BinTerm(samples, bins[i], cos2pi, sin2pi)
  }

  lemma SpectrumExtend(sp: Spectrum, samples: seq<real>, sampleRate: real, bins: seq<int>,
                       cos2pi: real -> real, sin2pi: real -> real, k: int, freq: real, result: BinResult)
    requires |samples| > 0
    requires IsSpectrumOf(sp, samples, sampleRate, bins, cos2pi, sin2pi)
    requires freq == BinFrequency(k, sampleRate, |samples|)
    requires result == BinTerm(samples, k, cos2pi, sin2pi)
    ensures IsSpectrumOf(Spectrum(sp.freqs + [freq], sp.results + [result]), samples, sampleRate, bins + [k], cos2pi, sin2pi)
  {
    var sp' := Spectrum(sp.freqs + [freq], sp.results + [result]);
    var bins' := bins + [k];
    forall i | 0 <= i < |bins'|
      ensures sp'.freqs[i] == BinFrequency(bins'[i], sampleRate, |samples|)
      ensures sp'.results[i] == BinTerm(samples, bins'[i], cos2pi, sin2pi)
    {
      if i < |bins| {
        assert sp'.freqs[i] == sp.freqs[i] && sp'.results[i] == sp.results[i] && bins'[i] == bins[i];
      }
    }
  }

  lemma ScaledBin(k: real, n: real, sampleRate: real)
    requires n > 0.0
    ensures k * (1.0 / n) == k / n
    ensures k * (1.0 / n) * sampleRate == k * sampleRate / n
  {
  }

  /** The body of the bin loop of `goertzel`: coefficients, recurrence,
      result triple and frequency of bin `k`. */
  method ComputeBin(samples: seq<real>, sampleRate: real, k: int, fStepNormalized: real,
                    cos2pi: real -> real, sin2pi: real -> real)
    returns (freq: real, result: BinResult)
    requires |samples| > 0 && fStepNormalized == 1.0 / |samples| as real
    ensures freq == BinFrequency(k, sampleRate, |samples|)
    ensures result == BinTerm(samples, k, cos2pi, sin2pi)
  {
    var f := k as real * fStepNormalized;
    ScaledBin(k as real, |samples| as real, sampleRate);
    assert f == NormalizedFrequency(k, |samples|);
    var wReal := 2.0 * cos2pi(f);
    var wImag := sin2pi(f);
    var d1, d2 := RunRecurrence(samples, wReal);
    result := Coefficients(d1, d2, wReal, wImag);
    freq := f * sampleRate;
  }

  /** The first loop of `goertzel`: grow the bin set range by range, raising
      on the first range that fails. */
  method ComputeBins(ranges: seq<Range>, fStep: real, windowSize: int)
    returns (r: Result<set<int>, GoertzelError>)
    ensures r == SelectBins(ranges, fStep, windowSize)
  {
    var bins: set<int> := {};
    for i := 0 to |ranges|
      invariant SelectBins(ranges[..i], fStep, windowSize) == Success(bins)
    {
      assert ranges[..i + 1][..i] == ranges[..i];
      var (fStart, fEnd) := ranges[i];
      if fStep == 0.0 {
        SelectBinsFailureSticks(ranges, fStep, windowSize, i + 1);
        return Failure(ZeroDivision);
      }
      var kStart := (fStart / fStep).Floor;
      var kEnd := Ceil(fEnd / fStep);
      if kEnd > windowSize - 1 {
        SelectBinsFailureSticks(ranges, fStep, windowSize, i + 1);
        return Failure(FrequencyOutOfRange(kEnd));
      }
      bins := bins + Interval(kStart, kEnd);
    }
    assert ranges[..|ranges|] == ranges;
    return Success(bins);
  }

  /** The inner loop of `goertzel`: run the recurrence over the whole window. */
  method RunRecurrence(samples: seq<real>, wReal: real) returns (d1: real, d2: real)
    ensures (d1, d2) == Recurrence(samples, wReal)
  {
    d1, d2 := 0.0, 0.0;
    for n := 0 to |samples|
      invariant (d1, d2) == Recurrence(samples[..n], wReal)
    {
      assert samples[..n + 1][..n] == samples[..n];
      var y := samples[n] + wReal * d1 - d2;
      assert y == RecurrenceStep(samples[n], wReal, d1, d2);
      d2, d1 := d1, y;
    }
    assert samples[..|samples|] == samples;
  }

  /** `goertzel(samples, sample_rate, *freqs)`: the bins covering the ranges,
      visited in ascending order, each with its frequency and its term; or the
      error the source raises. */
  method Goertzel(samples: seq<real>, sampleRate: real, ranges: seq<Range>,
                  cos2pi: real -> real, sin2pi: real -> real)
    returns (r: Result<Spectrum, GoertzelError>)
    ensures |samples| == 0 ==> r == Failure(ZeroDivision)
    ensures |samples| > 0 ==>
      match SelectBins(ranges, sampleRate / |samples| as real, |samples|)
      case Failure(e) => r == Failure(e)
      case Success(bins) =>
        r.Success? && IsSpectrumOf(r.value, samples, sampleRate, Ascending(bins), cos2pi, sin2pi)
  {
    var windowSize := |samples|;
    if windowSize == 0 {
      return Failure(ZeroDivision);
    }
    var fStep := sampleRate / windowSize as real;
    var fStepNormalized := 1.0 / windowSize as real;

    // The DFT bins needed to cover the requested ranges.
    var selected := ComputeBins(ranges, fStep, windowSize);
    if selected.Failure? {
      return Failure(selected.error);
    }
    var bins := selected.value;

    // One DFT term per bin.
    var sp := TermsInOrder(samples, sampleRate, bins, fStepNormalized, cos2pi, sin2pi);
    return Success(sp);
  }

  /** The smallest element of a bin set comes first in its ascending order. */
  lemma AscendingHead(s: set<int>, k: int)
    requires k in s && forall j :: j in s ==> k <= j
    ensures Ascending(s) == [k] + Ascending(s - {k})
  {
    assert k == Minimum(s);
  }

  /** Taking the minimum out of the unvisited bins moves it to the end of the
      visited ones. */
  lemma AscendingStep(bins: set<int>, done: seq<int>, remaining: set<int>, k: int)
    requires Ascending(bins) == done + Ascending(remaining)
    requires k in remaining && forall j :: j in remaining ==> k <= j
    ensures Ascending(bins) == (done + [k]) + Ascending(remaining - {k})
  {
    AscendingHead(remaining, k);
    ConcatAssoc(done, [k], Ascending(remaining - {k}));
  }

  lemma ConcatAssoc(a: seq<int>, b: seq<int>, c: seq<int>)
    ensures a + (b + c) == (a + b) + c
  {
  }

  /** The second loop of `goertzel`: one term per selected bin, in ascending
      bin order. */
  method TermsInOrder(samples: seq<real>, sampleRate: real, bins: set<int>, fStepNormalized: real,
                      cos2pi: real -> real, sin2pi: real -> real)
    returns (sp: Spectrum)
    requires |samples| > 0 && fStepNormalized == 1.0 / |samples| as real
    ensures IsSpectrumOf(sp, samples, sampleRate, Ascending(bins), cos2pi, sin2pi)
  {
    sp := Spectrum([], []);
    var remaining := bins;
    ghost var done: seq<int> := [];
    while remaining != {}
      invariant Ascending(bins) == done + Ascending(remaining)
      invariant IsSpectrumOf(sp, samples, sampleRate, done, cos2pi, sin2pi)
      decreases |remaining|
    {
      MinimumExists(remaining);
      var k :| k in remaining && forall j :: j in remaining ==> k <= j;
      AscendingStep(bins, done, remaining, k);
      var freq, result := ComputeBin(samples, sampleRate, k, fStepNormalized, cos2pi, sin2pi);
      SpectrumExtend(sp, samples, sampleRate, done, cos2pi, sin2pi, k, freq, result);
      sp := Spectrum(sp.freqs + [freq], sp.results + [result]);
      done := done + [k];
      remaining := remaining - {k};
    }
    assert Ascending(remaining) == [];
    assert done + [] == done;
  }

  // ------------------------------------------------------------------
  // Snapping a frequency to a table
  // ------------------------------------------------------------------

  function Abs(x: real): real
  {
    if x < 0.0 then -x else x
  }

  /** The position of the element that `min(freqs, key=lambda f: abs(f - n))`
      returns; `ClosestIndexIsFirstNearest` states which one that is. */
  function ClosestIndex(n: real, freqs: seq<real>): (i: nat)
    requires |freqs| > 0
    ensures i < |freqs|
    decreases |freqs|
  {
    if |freqs| == 1 then 0
    else
      var k := 1 + ClosestIndex(n, freqs[1..]);
      if Abs(freqs[0] - n) <= Abs(freqs[k] - n) then 0 else k
  }

  /** `min` with a key keeps the first of the elements with the least key:
      the chosen element is nearest to `n`, and strictly nearer than every
      element before it. */
  lemma {:induction false} ClosestIndexIsFirstNearest(n: real, freqs: seq<real>)
    requires |freqs| > 0
    ensures forall j :: 0 <= j < |freqs| ==> Abs(freqs[ClosestIndex(n, freqs)] - n) <= Abs(freqs[j] - n)
    ensures forall j :: 0 <= j < ClosestIndex(n, freqs) ==> Abs(freqs[ClosestIndex(n, freqs)] - n) < Abs(freqs[j] - n)
    decreases |freqs|
  {
    if |freqs| > 1 {
      ClosestIndexIsFirstNearest(n, freqs[1..]);
      assert forall j :: 1 <= j < |freqs| ==> freqs[j] == freqs[1..][j - 1];
    }
  }

  /** `find_closest_freq(n, freqs, deviation)`: the first nearest table entry
      when it lies within `deviation` of `n` (both ends inclusive), else None.
      Python's `min` raises on an empty list, hence the precondition.
      `FindClosestFreqIsFirstNearest` states which entry it picks. */
  function FindClosestFreq(n: real, freqs: seq<real>, deviation: real): (r: Option<real>)
    requires |freqs| > 0
    ensures r.Some? <==> exists f :: f in freqs && Abs(f - n) <= deviation
    ensures r.Some? ==> r.value in freqs && r.value - deviation <= n <= r.value + deviation
  {
    var i := ClosestIndex(n, freqs);
    var closestNormal := freqs[i];
    assert forall f :: f in freqs ==> Abs(closestNormal - n) <= Abs(f - n) by {
      ClosestIndexIsFirstNearest(n, freqs);
      forall f | f in freqs
        ensures Abs(closestNormal - n) <= Abs(f - n)
      {
        var j :| 0 <= j < |freqs| && freqs[j] == f;
      }
    }
    var upperDeviation := closestNormal + deviation;
    var lowerDeviation := closestNormal - deviation;
    if n <= upperDeviation && n >= lowerDeviation then
      assert closestNormal in freqs && Abs(closestNormal - n) <= deviation;
      Some(closestNormal)
    else
      None
  }

  /** The entry `find_closest_freq` returns is nearest to `n`, and the first of
      the nearest in list order. */
  lemma FindClosestFreqIsFirstNearest(n: real, freqs: seq<real>, deviation: real)
    requires |freqs| > 0
    ensures var r := FindClosestFreq(n, freqs, deviation);
      r.Some? ==>
        (forall f :: f in freqs ==> Abs(r.value - n) <= Abs(f - n))
        && exists i :: 0 <= i < |freqs| && freqs[i] == r.value
             && forall j :: 0 <= j < i ==> Abs(freqs[j] - n) > Abs(r.value - n)
  {
    var i := ClosestIndex(n, freqs);
    ClosestIndexIsFirstNearest(n, freqs);
    forall f | f in freqs
      ensures Abs(freqs[i] - n) <= Abs(f - n)
    {
      var j :| 0 <= j < |freqs| && freqs[j] == f;
    }
  }

  /** With zero tolerance every table entry snaps to itself. */
  lemma ExactMatchSnapsToItself(c: real, freqs: seq<real>)
    requires c in freqs
    ensures FindClosestFreq(c, freqs, 0.0) == Some(c)
  {
    var i := ClosestIndex(c, freqs);
    ClosestIndexIsFirstNearest(c, freqs);
    var j :| 0 <= j < |freqs| && freqs[j] == c;
    assert Abs(freqs[i] - c) <= Abs(freqs[j] - c);
  }

  // ------------------------------------------------------------------
  // The two strongest bins
  // ------------------------------------------------------------------

  /** `np.array(results)[:,2]`: the power column. */
  function Powers(results: seq<BinResult>): (ps: seq<real>)
    ensures |ps| == |results|
    ensures forall i :: 0 <= i < |results| ==> ps[i] == results[i].power
  {
    seq(|results|, i requires 0 <= i < |results| => results[i].power)
  }

  /** The largest value: `np_results[sorted_energies[-1]]`. */
  function Largest(ps: seq<real>): (m: real)
    requires |ps| > 0
    ensures m in ps
    ensures forall i :: 0 <= i < |ps| ==> ps[i] <= m
    decreases |ps|
  {
    if |ps| == 1 then ps[0]
    else
      var rest := Largest(ps[1..]);
      assert forall i :: 1 <= i < |ps| ==> ps[i] == ps[1..][i - 1];
      if ps[0] >= rest then ps[0] else rest
  }

  /** The first index holding `v`: `np.where(np_results == v)[0][0]`. */
  function FirstIndexOf(ps: seq<real>, v: real): (i: nat)
    requires v in ps
    ensures i < |ps| && ps[i] == v
    ensures forall j :: 0 <= j < i ==> ps[j] != v
    decreases |ps|
  {
    if ps[0] == v then 0
    else
      assert v in ps[1..];
      1 + FirstIndexOf(ps[1..], v)
  }

  /** The second value from the top of the sorted powers,
      `np_results[sorted_energies[-2]]`: once one occurrence of the maximum is
      set aside, the largest remaining value. Which occurrence the unstable
      `argsort` sets aside does not change the value. */
  function SecondLargest(ps: seq<real>): (m: real)
    requires |ps| >= 2
    ensures m <= Largest(ps)
    ensures forall j :: 0 <= j < |ps| && j != FirstIndexOf(ps, Largest(ps)) ==> ps[j] <= m
    ensures exists j :: 0 <= j < |ps| && j != FirstIndexOf(ps, Largest(ps)) && ps[j] == m
  {
    var top := FirstIndexOf(ps, Largest(ps));
    var rest := ps[..top] + ps[top + 1..];
    RemoveAt(ps, top);
    var m := Largest(rest);
    var l :| 0 <= l < |rest| && rest[l] == m;
    assert ps[if l < top then l else l + 1] == m;
    m
  }

  /** Where the elements of a sequence go when the one at `top` is removed. */
  lemma RemoveAt(ps: seq<real>, top: nat)
    requires top < |ps|
    ensures |ps[..top] + ps[top + 1..]| == |ps| - 1
    ensures forall j :: 0 <= j < top ==> ps[j] == (ps[..top] + ps[top + 1..])[j]
    ensures forall j :: top < j < |ps| ==> ps[j] == (ps[..top] + ps[top + 1..])[j - 1]
  {
  }

  /** Tone `t` is the frequency and power of the FIRST result that has power `t.energy`. */
  ghost predicate FirstWithPower(freqs: seq<real>, results: seq<BinResult>, t: Tone)
    requires |results| <= |freqs|
  {
    exists i :: 0 <= i < |results| && results[i].power == t.energy && freqs[i] == t.freq
      && forall j :: 0 <= j < i ==> results[j].power != t.energy
  }

  /** `get_frequency_energy_pairs(freqs, results)`: the two strongest bins as
      `(low, high)`. The source needs at least two results (fewer make the
      numpy indexing raise) and a frequency for each. */
  function GetFrequencyEnergyPairs(freqs: seq<real>, results: seq<BinResult>): (r: (Tone, Tone))
    requires 2 <= |results| <= |freqs|
    ensures r.0.freq <= r.1.freq
    ensures var ps := Powers(results);
      (r.0.energy == SecondLargest(ps) && r.1.energy == Largest(ps))
      || (r.0.energy == Largest(ps) && r.1.energy == SecondLargest(ps))
    ensures FirstWithPower(freqs, results, r.0) && FirstWithPower(freqs, results, r.1)
    ensures r.0.freq == r.1.freq ==> r.0.energy == Largest(Powers(results))
  {
    var npResults := Powers(results);
    var f1Energy := SecondLargest(npResults);
    var f2Energy := Largest(npResults);
    var i1 := FirstIndexOf(npResults, f1Energy);
    var i2 := FirstIndexOf(npResults, f2Energy);
    var f1 := freqs[i1];
    var f2 := freqs[i2];
    assert FirstWithPower(freqs, results, Tone(f1, f1Energy));
    assert FirstWithPower(freqs, results, Tone(f2, f2Energy));
    if f1 < f2 then (Tone(f1, f1Energy), Tone(f2, f2Energy))
    else (Tone(f2, f2Energy), Tone(f1, f1Energy))
  }

  /** `Largest` and `SecondLargest` are the top two of the sorted powers:
      they sit at two distinct positions, and of any two positions at least one
      holds no more than the second largest. */
  lemma {:induction false} TopTwo(ps: seq<real>)
    requires |ps| >= 2
    ensures exists i, j :: (0 <= i < |ps| && 0 <= j < |ps| && i != j
      && ps[i] == Largest(ps) && ps[j] == SecondLargest(ps))
    ensures forall k, l :: 0 <= k < l < |ps| ==> ps[k] <= SecondLargest(ps) || ps[l] <= SecondLargest(ps)
  {
    var top := FirstIndexOf(ps, Largest(ps));
    var second := SecondLargest(ps);
    var j :| 0 <= j < |ps| && j != top && ps[j] == second;
    assert ps[top] == Largest(ps);
    forall k, l | 0 <= k < l < |ps|
      ensures ps[k] <= second || ps[l] <= second
    {
      if k != top {
        assert ps[k] <= second;
      } else {
        assert ps[l] <= second;
      }
    }
  }

  lemma FirstIndexUnique(ps: seq<real>, v: real, i: nat, i': nat)
    requires i < |ps| && ps[i] == v && forall j :: 0 <= j < i ==> ps[j] != v
    requires i' < |ps| && ps[i'] == v && forall j :: 0 <= j < i' ==> ps[j] != v
    ensures i == i'
  {
  }

  /** When the two largest powers are equal, both tones report the frequency
      of the first bin with that power. */
  lemma TiedPowersShareFrequency(freqs: seq<real>, results: seq<BinResult>)
    requires 2 <= |results| <= |freqs|
    requires var (low, high) := GetFrequencyEnergyPairs(freqs, results); low.energy == high.energy
    ensures var (low, high) := GetFrequencyEnergyPairs(freqs, results); low.freq == high.freq
  {
    var (low, high) := GetFrequencyEnergyPairs(freqs, results);
    var i :| 0 <= i < |results| && results[i].power == low.energy && freqs[i] == low.freq
      && forall j :: 0 <= j < i ==> results[j].power != low.energy;
    var i' :| 0 <= i' < |results| && results[i'].power == high.energy && freqs[i'] == high.freq
      && forall j :: 0 <= j < i' ==> results[j].power != high.energy;
    FirstIndexUnique(Powers(results), low.energy, i, i');
  }
}
