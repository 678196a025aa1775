/** The DTMF constants, the keypad table and the per-window debounce step of
    `decoded_signals` in `dtmf_decoder/__main__.py`. */
module Dtmf {
  import opened Wrappers
  import opened Helpers

  // ------------------------------------------------------------------
  // Constants
  // ------------------------------------------------------------------

  /** Sampling rate in Hz (the G.711 telephone rate). */
  const Fs: real := 8000.0
  /** Seconds of audio read per window. */
  const SampleWindow: real := 15.0 / 1000.0
  /** Samples per window; `SampleSizeIsCeiling` shows it is `math.ceil(FS * SAMPLE_WINDOW)`. */
  const SampleSize: int := 120
  /** Largest distance, in Hz, between a measured tone and its table entry. */
  const MaxToneDeviation: real := 50.0
  /** Energies must be strictly above these for a keypress. */
  const MinLowFEnergy: real := 5.0
  const MinHighFEnergy: real := 5.0
  /** Accumulated tone duration, in seconds, needed before a key is emitted. */
  const MinSignalDuration: real := 50.0 / 1000.0
  /** Least time, in seconds, between two emitted keys. */
  const SymbolSpacingDuration: real := 100.0 / 1000.0

  lemma SampleSizeIsCeiling()
    ensures SampleSize == Ceil(Fs * SampleWindow)
  {
    assert Fs * SampleWindow == 120.0;
    assert (-120.0).Floor == -120;
  }

  // ------------------------------------------------------------------
  // The keypad
  // ------------------------------------------------------------------

  /** Row frequencies and column frequencies. */
  const Low: seq<real> := [697.0, 770.0, 852.0, 941.0]
  const High: seq<real> := [1209.0, 1336.0, 1477.0, 1633.0]

  /** `KEYMAP`: (row frequency, column frequency) to key. */
  const Keymap: map<(real, real), char> := map[
    (697.0, 1209.0) := '1', (697.0, 1336.0) := '2', (697.0, 1477.0) := '3', (697.0, 1633.0) := 'A',
    (770.0, 1209.0) := '4', (770.0, 1336.0) := '5', (770.0, 1477.0) := '6', (770.0, 1633.0) := 'B',
    (852.0, 1209.0) := '7', (852.0, 1336.0) := '8', (852.0, 1477.0) := '9', (852.0, 1633.0) := 'C',
    (941.0, 1209.0) := '*', (941.0, 1336.0) := '0', (941.0, 1477.0) := '#', (941.0, 1633.0) := 'D']

  /** The keypad of ITU-T Recommendation Q.23, row by row: the key in row `r`
      and column `c` is sent as the tones `Low[r]` and `High[c]`. */
  const Keypad: seq<string> := ["123A", "456B", "789C", "*0#D"]

  /** Every cell of the keypad is in the map, with the key Q.23 assigns it. */
  lemma KeymapMatchesKeypad()
    ensures forall r, c :: 0 <= r < 4 && 0 <= c < 4 ==>
      (Low[r], High[c]) in Keymap && Keymap[(Low[r], High[c])] == Keypad[r][c]
  {
  }

  /** The map's keys are exactly the row-by-column pairs. */
  lemma KeymapKeysAreGrid()
    ensures forall p :: p in Keymap <==> p.0 in Low && p.1 in High
  {
  }

  /** The tone pair that sends `key`: its row and column on the keypad. */
  function Tones(key: char): (real, real)
  {
    var row := if key in Keypad[0] then 0 else if key in Keypad[1] then 1 else if key in Keypad[2] then 2 else 3;
    var col := if key in "147*" then 0 else if key in "2580" then 1 else if key in "369#" then 2 else 3;
    (Low[row], High[col])
  }

  /** Reading the map backwards recovers the tones from the key, so no two
      cells share a symbol. */
  lemma KeymapDistinct()
    ensures forall p :: p in Keymap ==> Tones(Keymap[p]) == p
    ensures forall p, q :: p in Keymap && q in Keymap && p != q ==> Keymap[p] != Keymap[q]
  {
    forall p | p in Keymap
      ensures Tones(Keymap[p]) == p
    {
      KeymapKeysAreGrid();
      var r :| 0 <= r < 4 && Low[r] == p.0;
      var c :| 0 <= c < 4 && High[c] == p.1;
      KeymapMatchesKeypad();
      TonesOfKeypad(r, c);
    }
  }

  /** `Tones` finds the row and column of each keypad cell. */
  lemma TonesOfKeypad(r: int, c: int)
    requires 0 <= r < 4 && 0 <= c < 4
    ensures Tones(Keypad[r][c]) == (Low[r], High[c])
  {
  }

  /** The two groups are disjoint: every row tone lies below every column tone. */
  lemma BandsSeparate()
    ensures forall i, j :: 0 <= i < |Low| && 0 <= j < |High| ==> Low[i] < High[j]
    ensures forall f :: f in Low ==> f !in High
  {
  }

  // ------------------------------------------------------------------
  // The analysis window
  // ------------------------------------------------------------------

  /** The two ranges `decoded_signals` passes to `goertzel`. */
  const DtmfRanges: seq<Range> := [(697.0, 941.0), (1209.0, 1633.0)]

  /** The bins these ranges select, in ascending order. */
  const DtmfBins: seq<int> := [10, 11, 12, 13, 14, 18, 19, 20, 21, 22, 23, 24]

  /** The bins of the first range: 697/66.67 = 10.46 rounds down to 10,
      941/66.67 = 14.1 rounds up to 15. */
  lemma RowBins()
    ensures SelectBins(DtmfRanges[..1], Fs / SampleSize as real, SampleSize) == Success(Interval(10, 15))
  {
    var fStep := Fs / SampleSize as real;
    assert KStart((697.0, 941.0), fStep) == 10;
    assert KEnd((697.0, 941.0), fStep) == 15 by { assert (-(941.0 / fStep)).Floor == -15; }
    var first := DtmfRanges[..1];
    assert first[|first| - 1] == (697.0, 941.0);
    assert first[..|first| - 1] == [];
    assert SelectBins(first[..|first| - 1], fStep, SampleSize) == Success({});
    assert {} + Interval(10, 15) == Interval(10, 15);
  }

  /** At 8000 Hz and 120 samples the two ranges need bins 10..14 and 18..24
      (1209/66.67 = 18.1 down to 18, 1633/66.67 = 24.5 up to 25), and 25 is
      within the window: no range error. */
  lemma DtmfBinSelection()
    ensures SelectBins(DtmfRanges, Fs / SampleSize as real, SampleSize) == Success(Interval(10, 15) + Interval(18, 25))
  {
    var fStep := Fs / SampleSize as real;
    RowBins();
    assert KStart((1209.0, 1633.0), fStep) == 18;
    assert KEnd((1209.0, 1633.0), fStep) == 25 by { assert (-(1633.0 / fStep)).Floor == -25; }
    assert DtmfRanges[..|DtmfRanges| - 1] == DtmfRanges[..1];
  }

  /** Visited in ascending order, those bins are `DtmfBins`. */
  lemma DtmfBinOrder()
    ensures Ascending(Interval(10, 15) + Interval(18, 25)) == DtmfBins
  {
    var bins := Interval(10, 15) + Interval(18, 25);
    DtmfBinsAreTheBins();
    DtmfBinsIncrease();
    AscendingUnique(Ascending(bins), DtmfBins);
  }

  lemma DtmfBinsAreTheBins()
    ensures forall k :: k in Interval(10, 15) + Interval(18, 25) <==> k in DtmfBins
  {
  }

  lemma DtmfBinsIncrease()
    ensures StrictlyIncreasing(DtmfBins)
  {
  }

  // ------------------------------------------------------------------
  // The debounce step
  // ------------------------------------------------------------------

  /** Python truthiness of a `find_closest_freq` result: None and 0 are false. */
  predicate Truthy(o: Option<real>)
  {
    o.Some? && o.value != 0.0
  }

  function SnapLow(f: real): Option<real>
  {
    FindClosestFreq(f, Low, MaxToneDeviation)
  }

  function SnapHigh(f: real): Option<real>
  {
    FindClosestFreq(f, High, MaxToneDeviation)
  }

  /** What one window contributes: the (low, high) pair of strongest bins. */
  datatype Window = Window(low: Tone, high: Tone)

  /** `found_freq_pair`: both tones snap to their tables. */
  predicate FoundPair(w: Window)
  {
    Truthy(SnapLow(w.low.freq)) && Truthy(SnapHigh(w.high.freq))
  }

  /** The table entries are non-zero, so Python's truthiness test on the
      snapped tones is exactly "neither is None". */
  lemma FoundPairIffSnapped(w: Window)
    ensures FoundPair(w) <==> SnapLow(w.low.freq).Some? && SnapHigh(w.high.freq).Some?
  {
    assert SnapLow(w.low.freq).Some? ==> SnapLow(w.low.freq).value > 0.0;
    assert SnapHigh(w.high.freq).Some? ==> SnapHigh(w.high.freq).value > 0.0;
  }

  /** Two tones in the same group never make a key: the gap between the
      groups is wider than twice the tolerance. */
  lemma OneBandNoKey(w: Window)
    requires w.low.freq <= w.high.freq
    requires w.high.freq < 1159.0 || w.low.freq > 991.0
    ensures !FoundPair(w)
  {
    FoundPairIffSnapped(w);
    if w.high.freq < 1159.0 {
      NoColumnBelow(w.high.freq);
    } else {
      NoRowAbove(w.low.freq);
    }
  }

  /** Below 1159 Hz no column tone is within the tolerance. */
  lemma NoColumnBelow(f: real)
    requires f < 1159.0
    ensures SnapHigh(f).None?
  {
    assert forall h :: h in High ==> Abs(h - f) > MaxToneDeviation;
  }

  /** Above 991 Hz no row tone is within the tolerance. */
  lemma NoRowAbove(f: real)
    requires f > 991.0
    ensures SnapLow(f).None?
  {
    assert forall l :: l in Low ==> Abs(l - f) > MaxToneDeviation;
  }

  /** The two pieces of state of the loop: `current_signal_time` (seconds of
      tone accumulated) and `current_time` (when the last key was emitted). */
  datatype DebounceState = DebounceState(signalTime: real, lastEmission: real)

  /** The event yielded for a key: the key and the measured, unsnapped tones. */
  datatype KeypressEvent = KeypressEvent(pressedKey: char, fLow: real, energyLow: real, fHigh: real, energyHigh: real)

  datatype Outcome = Outcome(state: DebounceState, event: Option<KeypressEvent>)

  /** The key of the keypad cell nearest to the pair, once both tones snapped. */
  function KeyOf(w: Window): char
    requires FoundPair(w)
  {
    Keymap[(SnapLow(w.low.freq).value, SnapHigh(w.high.freq).value)]
  }

  /** A found pair snaps to a cell of the keymap. */
  lemma SnappedPairInKeymap(w: Window)
    requires FoundPair(w)
    ensures (SnapLow(w.low.freq).value, SnapHigh(w.high.freq).value) in Keymap
  {
    KeymapKeysAreGrid();
  }

  /** The key sent in a found pair is the Q.23 key of the row and column
      nearest to the measured tones. */
  lemma KeyOfIsKeypadCell(w: Window)
    requires FoundPair(w)
    ensures KeyOf(w) == Keypad[ClosestIndex(w.low.freq, Low)][ClosestIndex(w.high.freq, High)]
  {
    KeymapMatchesKeypad();
  }

  /** Whether a window yields a key: both energies strictly above their
      minimum, enough tone accumulated before this window, a pair found, and
      the spacing since the last key respected. */
  predicate Emits(s: DebounceState, w: Window, now: real)
  {
    w.low.energy > MinLowFEnergy && w.high.energy > MinHighFEnergy
    && s.signalTime >= MinSignalDuration && FoundPair(w)
    && now - s.lastEmission >= SymbolSpacingDuration
  }

  /** The event for a found pair: its key, and the measured tones. */
  function EventOf(w: Window): KeypressEvent
    requires FoundPair(w)
  {
    KeypressEvent(KeyOf(w), w.low.freq, w.low.energy, w.high.freq, w.high.energy)
  }

  /** The accumulator rule: a found pair adds one window's duration while the
      total is below the minimum; otherwise the total drops to zero. */
  function Accumulate(signalTime: real, found: bool): real
  {
    if signalTime < MinSignalDuration && found then signalTime + SampleWindow else 0.0
  }

  /** One pass of the `while True` loop, at time `now`. */
  function Next(s: DebounceState, w: Window, now: real): (o: Outcome)
    ensures o.event.Some? <==>
      w.low.energy > MinLowFEnergy && w.high.energy > MinHighFEnergy
      && s.signalTime >= MinSignalDuration && FoundPair(w)
      && now - s.lastEmission >= SymbolSpacingDuration
    ensures o.event.Some? ==>
      o.event.value == KeypressEvent(KeyOf(w), w.low.freq, w.low.energy, w.high.freq, w.high.energy)
      && o.state.lastEmission == now
    ensures o.event.None? ==> o.state.lastEmission == s.lastEmission
  {
    var emit := Emits(s, w, now);
    Outcome(DebounceState(Accumulate(s.signalTime, FoundPair(w)), if emit then now else s.lastEmission),
            if emit then Some(EventOf(w)) else None)
  }

  /** The tone time accumulated over a streak of `n` found windows: each
      found window adds 15 ms while the total is below 50 ms, and resets it to
      zero once it is not. */
  function StreakDuration(n: nat): real
  {
    if n == 0 then 0.0 else Accumulate(StreakDuration(n - 1), true)
  }

  /** The accumulator cycles through 0, 15, 30, 45 and 60 ms, with period five. */
  lemma {:induction false} StreakDurationValues(n: nat)
    ensures n % 5 == 0 ==> StreakDuration(n) == 0.0
    ensures n % 5 == 1 ==> StreakDuration(n) == 0.015
    ensures n % 5 == 2 ==> StreakDuration(n) == 0.03
    ensures n % 5 == 3 ==> StreakDuration(n) == 0.045
    ensures n % 5 == 4 ==> StreakDuration(n) == 0.06
  {
    if n > 0 {
      StreakDurationValues(n - 1);
      assert (n - 1) % 5 == 4 <==> n % 5 == 0;
    }
  }

  // ------------------------------------------------------------------
  // A run of windows
  // ------------------------------------------------------------------

  /** One window of input and the clock reading taken for it. */
  datatype Reading = Reading(window: Window, now: real)

  /** A yielded event and the time it was emitted. */
  datatype Emission = Emission(time: real, event: KeypressEvent)

  datatype Trace = Trace(state: DebounceState, emitted: seq<Emission>)

  /** A trace after one more window whose outcome is `o`, read at `now`. */
  function Extend(t: Trace, now: real, o: Outcome): (t': Trace)
    ensures t'.state == o.state
    ensures t'.emitted == t.emitted + if o.event.Some? then [Emission(now, o.event.value)] else []
  {
    Trace(o.state, t.emitted + if o.event.Some? then [Emission(now, o.event.value)] else [])
  }

  /** The loop over a sequence of windows: its final state and what it yields. */
  function Run(s: DebounceState, rs: seq<Reading>): (t: Trace)
    ensures |t.emitted| <= |rs|
    decreases |rs|
  {
    if |rs| == 0 then Trace(s, [])
    else
      var before := Run(s, rs[..|rs| - 1]);
      var last := rs[|rs| - 1];
      Extend(before, last.now, Next(before.state, last.window, last.now))
  }

  /** How many of the last windows, counted back from the end, had a found pair. */
  function Streak(rs: seq<Reading>): (n: nat)
    ensures n <= |rs|
    decreases |rs|
  {
    if |rs| == 0 || !FoundPair(rs[|rs| - 1].window) then 0
    else Streak(rs[..|rs| - 1]) + 1
  }

  /** From a zero accumulator, the accumulator holds the duration of the
      current streak of found pairs: 15 ms per window, the fifth found window
      resetting it. */
  lemma {:induction false} RunAccumulator(start: real, rs: seq<Reading>)
    ensures Run(DebounceState(0.0, start), rs).state.signalTime == StreakDuration(Streak(rs))
    decreases |rs|
  {
    if |rs| > 0 {
      var prefix := rs[..|rs| - 1];
      var last := rs[|rs| - 1];
      RunAccumulator(start, prefix);
      RunLast(DebounceState(0.0, start), rs);
      AccumulatorStep(Run(DebounceState(0.0, start), prefix).state, last.window, last.now, Streak(prefix), Streak(rs));
    }
  }

  /** The last window of a run is one more step from the rest of it. */
  lemma RunLast(s: DebounceState, rs: seq<Reading>)
    requires |rs| > 0
    ensures Run(s, rs).state == Next(Run(s, rs[..|rs| - 1]).state, rs[|rs| - 1].window, rs[|rs| - 1].now).state
    ensures Streak(rs) == if FoundPair(rs[|rs| - 1].window) then Streak(rs[..|rs| - 1]) + 1 else 0
  {
  }

  /** A window extends the streak and the accumulator in step. */
  lemma AccumulatorStep(s: DebounceState, w: Window, now: real, n: nat, m: nat)
    requires s.signalTime == StreakDuration(n)
    requires m == if FoundPair(w) then n + 1 else 0
    ensures Next(s, w, now).state.signalTime == StreakDuration(m)
  {
    StreakRule(n, FoundPair(w), m);
  }

  /** The accumulator rule, applied to the duration of a streak, gives the
      duration of the extended (or broken) streak. */
  lemma StreakRule(n: nat, found: bool, m: nat)
    requires m == if found then n + 1 else 0
    ensures Accumulate(StreakDuration(n), found) == StreakDuration(m)
  {
  }

  /** The threshold test `current_signal_time >= MIN_SIGNAL_DURATION` passes
      exactly after four, nine, fourteen, ... found windows. */
  lemma ThresholdAfterFour(n: nat)
    ensures StreakDuration(n) >= MinSignalDuration <==> n % 5 == 4
  {
    StreakDurationValues(n);
  }

  /** A found window after a streak whose length is 4 modulo 5 completes a
      streak whose length is a positive multiple of five, and only it does. */
  lemma FifthOfStreak(n: nat, found: bool, m: nat)
    requires m == if found then n + 1 else 0
    ensures (n % 5 == 4 && found) <==> (m % 5 == 0 && m > 0)
  {
  }

  /** From a zero accumulator, a window emits exactly when it completes a
      streak of found pairs whose length is a multiple of five, its energies
      pass, and 100 ms have gone by since the last emission. */
  lemma EmitsOnFifthWindow(start: real, rs: seq<Reading>, w: Window, now: real)
    ensures var s := Run(DebounceState(0.0, start), rs).state;
      Next(s, w, now).event.Some? <==>
        Streak(rs + [Reading(w, now)]) % 5 == 0 && Streak(rs + [Reading(w, now)]) > 0
        && w.low.energy > MinLowFEnergy && w.high.energy > MinHighFEnergy
        && now - s.lastEmission >= SymbolSpacingDuration
  {
    var rs' := rs + [Reading(w, now)];
    assert rs'[..|rs'| - 1] == rs;
    RunAccumulator(start, rs);
    ThresholdAfterFour(Streak(rs));
    FifthOfStreak(Streak(rs), FoundPair(w), Streak(rs'));
  }

  /** From a zero accumulator, none of the first four windows emits. */
  lemma {:induction false} NoEarlyEmission(start: real, rs: seq<Reading>)
    requires |rs| <= 4
    ensures Run(DebounceState(0.0, start), rs).emitted == []
    decreases |rs|
  {
    if |rs| > 0 {
      NoEarlyEmission(start, rs[..|rs| - 1]);
      QuietWindow(start, rs);
      QuietLast(DebounceState(0.0, start), rs);
    }
  }

  /** Four found windows followed by a window without a pair emit nothing:
      the threshold test sees the accumulator before the window is added, so
      a key needs a fifth found window. */
  lemma FourWindowsThenMiss(start: real, rs: seq<Reading>, miss: Reading)
    requires |rs| == 4
    requires !FoundPair(miss.window)
    ensures Run(DebounceState(0.0, start), rs + [miss]).emitted == []
  {
    var all := rs + [miss];
    assert all[..|all| - 1] == rs && all[|all| - 1] == miss;
    NoEarlyEmission(start, rs);
    assert Reading(miss.window, miss.now) == miss;
    EmitsOnFifthWindow(start, rs, miss.window, miss.now);
    QuietLast(DebounceState(0.0, start), all);
  }

  /** Within the first four windows, the last one emits nothing. */
  lemma QuietWindow(start: real, rs: seq<Reading>)
    requires 0 < |rs| <= 4
    ensures Next(Run(DebounceState(0.0, start), rs[..|rs| - 1]).state,
                 rs[|rs| - 1].window, rs[|rs| - 1].now).event.None?
  {
    var prefix := rs[..|rs| - 1];
    RunAccumulator(start, prefix);
    ShortStreakBelowThreshold(Streak(prefix));
  }

  /** Three or fewer found windows stay below the duration threshold. */
  lemma ShortStreakBelowThreshold(n: nat)
    requires n <= 3
    ensures StreakDuration(n) < MinSignalDuration
  {
    ThresholdAfterFour(n);
  }

  /** A window that emits nothing leaves the emissions as they were. */
  lemma QuietLast(s: DebounceState, rs: seq<Reading>)
    requires |rs| > 0
    requires Next(Run(s, rs[..|rs| - 1]).state, rs[|rs| - 1].window, rs[|rs| - 1].now).event.None?
    ensures Run(s, rs).emitted == Run(s, rs[..|rs| - 1]).emitted
  {
  }

  /** The emissions of a trace after `start`: each at least 100 ms after
      `start`, any two at least 100 ms apart, and the state holding the time
      of the latest (or `start` when there is none). */
  ghost predicate Spaced(start: real, t: Trace)
  {
    && (forall i :: 0 <= i < |t.emitted| ==> t.emitted[i].time >= start + SymbolSpacingDuration)
    && (forall i, j :: 0 <= i < j < |t.emitted| ==> t.emitted[j].time - t.emitted[i].time >= SymbolSpacingDuration)
    && t.state.lastEmission == if |t.emitted| == 0 then start else t.emitted[|t.emitted| - 1].time
  }

  /** What one step promises about the emission clock. */
  ghost predicate StepSpaced(s: DebounceState, now: real, o: Outcome)
  {
    && (o.event.Some? ==> o.state.lastEmission == now && now - s.lastEmission >= SymbolSpacingDuration)
    && (o.event.None? ==> o.state.lastEmission == s.lastEmission)
  }

  lemma NextSpaced(s: DebounceState, w: Window, now: real)
    ensures StepSpaced(s, now, Next(s, w, now))
  {
  }

  /** A step that keeps the spacing keeps the whole trace spaced. */
  lemma ExtendSpaced(start: real, t: Trace, now: real, o: Outcome)
    requires Spaced(start, t) && StepSpaced(t.state, now, o)
    ensures Spaced(start, Extend(t, now, o))
  {
    var t' := Extend(t, now, o);
    if o.event.Some? {
      var n := |t.emitted|;
      assert t'.emitted[n].time == now;
      forall i | 0 <= i < n
        ensures t'.emitted[i] == t.emitted[i] && t.emitted[i].time <= t.state.lastEmission
      {
        assert i < n - 1 ==> t.emitted[n - 1].time - t.emitted[i].time >= SymbolSpacingDuration;
      }
    } else {
      assert t'.emitted == t.emitted;
    }
  }

  /** Every emission of a run is at least 100 ms after the time the run
      started from, any two are at least 100 ms apart, and the state remembers
      the time of the latest: whatever the clock readings. */
  lemma {:induction false} RunSpacing(s: DebounceState, rs: seq<Reading>)
    ensures Spaced(s.lastEmission, Run(s, rs))
    decreases |rs|
  {
    if |rs| > 0 {
      var before := Run(s, rs[..|rs| - 1]);
      var last := rs[|rs| - 1];
      RunSpacing(s, rs[..|rs| - 1]);
      NextSpaced(before.state, last.window, last.now);
      ExtendSpaced(s.lastEmission, before, last.now, Next(before.state, last.window, last.now));
    }
  }

  // ------------------------------------------------------------------
  // The decoder loop
  // ------------------------------------------------------------------

  /** The spectrum `goertzel` returns for a window of `SampleSize` frames over
      the two DTMF ranges. */
  ghost function DtmfSpectrum(frames: seq<real>, cos2pi: real -> real, sin2pi: real -> real): Spectrum
    requires |frames| > 0
  {
    Spectrum(seq(|DtmfBins|, i requires 0 <= i < |DtmfBins| => BinFrequency(DtmfBins[i], Fs, |frames|)),
             seq(|DtmfBins|, i requires 0 <= i < |DtmfBins| => BinTerm(frames, DtmfBins[i], cos2pi, sin2pi)))
  }

  /** The window a block of frames yields: the two strongest DTMF bins. */
  ghost function WindowOf(frames: seq<real>, cos2pi: real -> real, sin2pi: real -> real): Window
    requires |frames| > 0
  {
    var sp := DtmfSpectrum(frames, cos2pi, sin2pi);
    var pair := GetFrequencyEnergyPairs(sp.freqs, sp.results);
    Window(pair.0, pair.1)
  }

  /** Any spectrum with the bins' frequencies and terms is `DtmfSpectrum`. */
  lemma SpectrumIsDtmfSpectrum(sp: Spectrum, frames: seq<real>, cos2pi: real -> real, sin2pi: real -> real)
    requires |frames| > 0
    requires IsSpectrumOf(sp, frames, Fs, DtmfBins, cos2pi, sin2pi)
    ensures sp == DtmfSpectrum(frames, cos2pi, sin2pi)
  {
  }

  /** The state of `decoded_signals` between windows. */
  class Decoder {
    /** `current_signal_time`. */
    var signalTime: real
    /** `current_time`: when the last key was emitted, or when decoding started. */
    var lastEmission: real

    function State(): DebounceState
      reads this
    {
      DebounceState(signalTime, lastEmission)
    }

    /** Decoding starts with an empty accumulator; `start` is the clock reading
        taken before the first window. */
    constructor(start: real)
      ensures State() == DebounceState(0.0, start)
    {
      signalTime := 0.0;
      lastEmission := start;
    }

    /** The decisions of one pass of the loop on the strongest pair of a window. */
    method Step(w: Window, now: real) returns (event: Option<KeypressEvent>)
      modifies this
      ensures Outcome(State(), event) == Next(old(State()), w, now)
    {
      var closestLow := FindClosestFreq(w.low.freq, Low, MaxToneDeviation);
      var closestHigh := FindClosestFreq(w.high.freq, High, MaxToneDeviation);
      var reachedEnergyThreshold := w.low.energy > MinLowFEnergy && w.high.energy > MinHighFEnergy;
      var reachedSignalDurationThreshold := signalTime >= MinSignalDuration;
      var foundFreqPair := Truthy(closestLow) && Truthy(closestHigh);
      var currentTime := lastEmission;

      event := None;
      if reachedEnergyThreshold && reachedSignalDurationThreshold && foundFreqPair {
        SnappedPairInKeymap(w);
        var pressedKey := Keymap[(closestLow.value, closestHigh.value)];
        var currentSpacedTime := now - currentTime;
        if currentSpacedTime >= SymbolSpacingDuration {
          currentTime := now;
          event := Some(KeypressEvent(pressedKey, w.low.freq, w.low.energy, w.high.freq, w.high.energy));
        }
      }

      var currentSignalTime := signalTime;
      if !reachedSignalDurationThreshold && foundFreqPair {
        currentSignalTime := currentSignalTime + SampleWindow;
      } else {
        currentSignalTime := 0.0;
      }
      signalTime, lastEmission := currentSignalTime, currentTime;
    }

    /** One whole pass of the loop: analyse a block of `SampleSize` frames,
        take the strongest pair, and step. */
    method ProcessFrames(frames: seq<real>, now: real, cos2pi: real -> real, sin2pi: real -> real)
      returns (event: Option<KeypressEvent>)
      requires |frames| == SampleSize
      modifies this
      ensures Outcome(State(), event) == Next(old(State()), WindowOf(frames, cos2pi, sin2pi), now)
    {
      DtmfBinSelection();
      DtmfBinOrder();
      var spectrum := Goertzel(frames, Fs, DtmfRanges, cos2pi, sin2pi);
      if spectrum.Failure? {
        assert false;
        return None;
      }
      var sp := spectrum.value;
      SpectrumIsDtmfSpectrum(sp, frames, cos2pi, sin2pi);
      var pair := GetFrequencyEnergyPairs(sp.freqs, sp.results);
      event := Step(Window(pair.0, pair.1), now);
    }
  }

  /** `decoded_signals` over a finite sequence of windows: the keys it yields,
      with their emission times. */
  method DecodedSignals(start: real, readings: seq<Reading>) returns (emitted: seq<Emission>)
    ensures emitted == Run(DebounceState(0.0, start), readings).emitted
  {
    var decoder := new Decoder(start);
    emitted := [];
    for i := 0 to |readings|
      invariant Trace(decoder.State(), emitted) == Run(DebounceState(0.0, start), readings[..i])
    {
      assert readings[..i + 1][..i] == readings[..i];
      var event := decoder.Step(readings[i].window, readings[i].now);
      if event.Some? {
        emitted := emitted + [Emission(readings[i].now, event.value)];
      }
    }
    assert readings[..|readings|] == readings;
  }
}
