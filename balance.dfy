/** The two coupled balance loops of the driver, as functions of the settings
    and of the TIA readings the ADC will deliver.

    The readings are a finite trace, and `at` is the position of the next
    sample in it: each sample of the TIA output takes `readings[at]` and
    advances `at`. A run that wants a sample when the trace is used up stops
    with `Exhausted`; this is where the driver itself would keep looping. The
    trace length is what bounds the mutual recursion. */
module Balance {
  import opened Front

  datatype Outcome = Balanced | Exhausted

  /** The settings a balance run leaves behind, the position of the first
      reading it did not take, and how it ended. */
  datatype Run = Run(settings: Settings, next: nat, outcome: Outcome)

  /** One pass through a loop body: either one knob moved, or it was saturated
      and the other loop has to take over. */
  datatype Step = Adjusted(next: Settings) | HandOff

  /** What every balance run started at `at` guarantees: it takes readings
      from `at` on, returns Balanced only on an in-band reading (the last one
      it took) and Exhausted only when no reading is left, touches neither
      the bandpass gain nor the LED switch, and keeps a legal LED-current code
      legal. */
  predicate RunFacts(s: Settings, readings: seq<Sample>, at: nat, r: Run)
  {
    && at <= r.next <= |readings|
    && (r.outcome == Balanced ==> 0 < r.next && InBand(readings[r.next - 1]))
    && (r.outcome == Exhausted ==> r.next == |readings|)
    && r.settings.ppgGain == s.ppgGain
    && r.settings.ledOn == s.ledOn
    && (s.ledCurrent <= MaxLedCode ==> r.settings.ledCurrent <= MaxLedCode)
  }

  /** One pass of the LED-current loop on an out-of-band reading `v`. */
  function LedStep(s: Settings, v: Sample): (r: Step)
    requires !InBand(v)
    ensures r.HandOff? <==> (TooHigh(v) && s.ledCurrent == 0) || (TooLow(v) && s.ledCurrent >= MaxLedCode)
    ensures r.Adjusted? ==> r.next == s.(ledCurrent := r.next.ledCurrent) && r.next.ledCurrent <= MaxLedCode
    ensures r.Adjusted? && TooHigh(v) ==> r.next.ledCurrent < s.ledCurrent
    ensures r.Adjusted? && TooLow(v) ==> r.next.ledCurrent == s.ledCurrent + 1
    ensures r.Adjusted? && s.ledCurrent <= MaxLedCode ==>
      r.next.ledCurrent == if TooHigh(v) then s.ledCurrent - 1 else s.ledCurrent + 1
  {
    if TooHigh(v) && s.ledCurrent > 0 then
      Adjusted(s.(ledCurrent := ClampLedCode(s.ledCurrent - 1)))
    else if TooLow(v) && s.ledCurrent < MaxLedCode then
      Adjusted(s.(ledCurrent := ClampLedCode(s.ledCurrent + 1)))
    else
      HandOff
  }

  /** One pass of the TIA-gain loop on an out-of-band reading `v`. */
  function TiaStep(s: Settings, v: Sample): (r: Step)
    requires !InBand(v)
    ensures r.HandOff? <==> (TooHigh(v) && s.tiaGain == 0) || (TooLow(v) && s.tiaGain == MaxGainCode)
    ensures r.Adjusted? ==> r.next == s.(tiaGain := r.next.tiaGain)
    ensures r.Adjusted? ==> r.next.tiaGain == if TooHigh(v) then s.tiaGain - 1 else s.tiaGain + 1
  {
    if TooHigh(v) && s.tiaGain > 0 then
      Adjusted(s.(tiaGain := s.tiaGain - 1))
    else if TooLow(v) && s.tiaGain < MaxGainCode then
      Adjusted(s.(tiaGain := s.tiaGain + 1))
    else
      HandOff
  }

  /** balanceLEDCurrent: fix the TIA gain at its nominal code, then take a
      first sample and run the LED-current loop on it. */
  function BalanceLed(s: Settings, readings: seq<Sample>, at: nat): (r: Run)
    requires at <= |readings|
    ensures RunFacts(s, readings, at, r)
    ensures r.outcome == Balanced ==> at < r.next
    decreases |readings| - at, 1
  {
    LedResume(s.(tiaGain := NominalTiaGain), readings, at)
  }

  /** Because balanceLEDCurrent sets the TIA gain to its nominal code before
      its first sample, the gain it is called with never matters, on any
      trace, including every hand-off path. */
  lemma NominalGainIgnoresCaller(s: Settings, g: Byte, readings: seq<Sample>, at: nat)
    requires at <= |readings|
    ensures BalanceLed(s.(tiaGain := g), readings, at) == BalanceLed(s, readings, at)
  {
    assert s.(tiaGain := g).(tiaGain := NominalTiaGain) == s.(tiaGain := NominalTiaGain);
  }

  /** Take the next sample and go round the LED-current loop with it; out of
      readings, the run is exhausted. */
  function LedResume(s: Settings, readings: seq<Sample>, at: nat): (r: Run)
    requires at <= |readings|
    ensures RunFacts(s, readings, at, r)
    ensures r.outcome == Balanced ==> at < r.next
    decreases |readings| - at, 0
  {
    if at == |readings| then Run(s, at, Exhausted)
    else LedLoop(s, readings, at + 1)
  }

  /** The body of the LED-current loop on the out-of-band sample just taken,
      `readings[at - 1]`: step the LED current, or hand off to the TIA-gain
      loop. Yields the new settings and the position of the next sample. */
  function LedPass(s: Settings, readings: seq<Sample>, at: nat): (p: (Settings, nat))
    requires 0 < at <= |readings| && !InBand(readings[at - 1])
    ensures at <= p.1 <= |readings|
    ensures p.0.ppgGain == s.ppgGain && p.0.ledOn == s.ledOn
    ensures s.ledCurrent <= MaxLedCode ==> p.0.ledCurrent <= MaxLedCode
    decreases |readings| - at, 2
  {
    match LedStep(s, readings[at - 1])
    case Adjusted(next) => (next, at)
    case HandOff => var h := BalanceTia(s, readings, at); (h.settings, h.next)
  }

  /** The LED-current loop, entered with the sample just taken, `readings[at - 1]`. */
  function LedLoop(s: Settings, readings: seq<Sample>, at: nat): (r: Run)
    requires 0 < at <= |readings|
    ensures RunFacts(s, readings, at, r)
    decreases |readings| - at, 3
  {
    if InBand(readings[at - 1]) then Run(s, at, Balanced)
    else
      var (s2, at2) := LedPass(s, readings, at);
      LedResume(s2, readings, at2)
  }

  /** balanceTIAGain: take a first sample and run the TIA-gain loop on it. */
  function BalanceTia(s: Settings, readings: seq<Sample>, at: nat): (r: Run)
    requires at <= |readings|
    ensures RunFacts(s, readings, at, r)
    ensures r.outcome == Balanced ==> at < r.next
    decreases |readings| - at, 1
  {
    TiaResume(s, readings, at)
  }

  /** Take the next sample and go round the TIA-gain loop with it; out of
      readings, the run is exhausted. */
  function TiaResume(s: Settings, readings: seq<Sample>, at: nat): (r: Run)
    requires at <= |readings|
    ensures RunFacts(s, readings, at, r)
    ensures r.outcome == Balanced ==> at < r.next
    decreases |readings| - at, 0
  {
    if at == |readings| then Run(s, at, Exhausted)
    else TiaLoop(s, readings, at + 1)
  }

  /** The body of the TIA-gain loop on the out-of-band sample just taken:
      step the TIA gain, or hand off to the LED-current loop. */
  function TiaPass(s: Settings, readings: seq<Sample>, at: nat): (p: (Settings, nat))
    requires 0 < at <= |readings| && !InBand(readings[at - 1])
    ensures at <= p.1 <= |readings|
    ensures p.0.ppgGain == s.ppgGain && p.0.ledOn == s.ledOn
    ensures s.ledCurrent <= MaxLedCode ==> p.0.ledCurrent <= MaxLedCode
    decreases |readings| - at, 2
  {
    match TiaStep(s, readings[at - 1])
    case Adjusted(next) => (next, at)
    case HandOff => var h := BalanceLed(s, readings, at); (h.settings, h.next)
  }

  /** The TIA-gain loop, entered with the sample just taken, `readings[at - 1]`. */
  function TiaLoop(s: Settings, readings: seq<Sample>, at: nat): (r: Run)
    requires 0 < at <= |readings|
    ensures RunFacts(s, readings, at, r)
    decreases |readings| - at, 3
  {
    if InBand(readings[at - 1]) then Run(s, at, Balanced)
    else
      var (s2, at2) := TiaPass(s, readings, at);
      TiaResume(s2, readings, at2)
  }

  /** While the readings from `at - 1` to `last - 1` are too bright and the
      LED current has room, the LED-current loop lowers the code by exactly one
      per reading and stops, balanced, on the in-band reading `readings[last]`. */
  lemma {:induction false} DimmingRamp(s: Settings, readings: seq<Sample>, at: nat, last: nat)
    requires 0 < at <= last < |readings|
    requires forall i :: at - 1 <= i < last ==> TooHigh(readings[i])
    requires InBand(readings[last])
    requires last - at + 1 <= s.ledCurrent <= MaxLedCode
    ensures LedLoop(s, readings, at) ==
      Run(s.(ledCurrent := s.ledCurrent - (last - at + 1)), last + 1, Balanced)
    decreases last - at
  {
    var s2 := s.(ledCurrent := s.ledCurrent - 1);
    assert LedStep(s, readings[at - 1]) == Adjusted(s2);
    assert LedPass(s, readings, at) == (s2, at);
    assert LedLoop(s, readings, at) == LedResume(s2, readings, at) == LedLoop(s2, readings, at + 1);
    if at < last {
      DimmingRamp(s2, readings, at + 1, last);
    }
  }

  /** balanceLEDCurrent on such a trace: the TIA gain is left at its nominal
      code and the LED code has dropped by one per out-of-band reading. */
  lemma {:induction false} BalanceLedDims(s: Settings, readings: seq<Sample>, at: nat, last: nat)
    requires at <= last < |readings|
    requires forall i :: at <= i < last ==> TooHigh(readings[i])
    requires InBand(readings[last])
    requires last - at <= s.ledCurrent <= MaxLedCode
    ensures BalanceLed(s, readings, at) ==
      Run(s.(ledCurrent := s.ledCurrent - (last - at), tiaGain := NominalTiaGain), last + 1, Balanced)
  {
    var s1 := s.(tiaGain := NominalTiaGain);
    assert BalanceLed(s, readings, at) == LedResume(s1, readings, at) == LedLoop(s1, readings, at + 1);
    if at < last {
      DimmingRamp(s1, readings, at + 1, last);
    }
  }

  /** While the readings from `at - 1` to `last - 1` are too dark and the TIA
      gain has room, the TIA-gain loop raises the gain by exactly one per
      reading, leaves the LED current alone, and stops, balanced, on the
      in-band reading `readings[last]`. */
  lemma {:induction false} GainRamp(s: Settings, readings: seq<Sample>, at: nat, last: nat)
    requires 0 < at <= last < |readings|
    requires forall i :: at - 1 <= i < last ==> TooLow(readings[i])
    requires InBand(readings[last])
    requires s.tiaGain + (last - at + 1) <= MaxGainCode
    ensures TiaLoop(s, readings, at) ==
      Run(s.(tiaGain := s.tiaGain + (last - at + 1)), last + 1, Balanced)
    decreases last - at
  {
    var s2 := s.(tiaGain := s.tiaGain + 1);
    assert TiaStep(s, readings[at - 1]) == Adjusted(s2);
    assert TiaPass(s, readings, at) == (s2, at);
    assert TiaLoop(s, readings, at) == TiaResume(s2, readings, at) == TiaLoop(s2, readings, at + 1);
    if at < last {
      GainRamp(s2, readings, at + 1, last);
    }
  }

  /** A reading that falls by 50 per step of the LED code, from 3000 at the
      dimmest code down to 2250. */
  function DimmingTrace(): seq<Sample>
  {
    seq(16, k requires 0 <= k < 16 => 3000 - 50 * k)
  }

  /** Balancing from the dimmest LED code 63 on that trace settles at code 48,
      where the reading is 2250, with the TIA gain at its nominal code. */
  lemma DimmingScenario(tiaGain: Byte, ppgGain: Byte, ledOn: bool)
    ensures BalanceLed(Settings(MaxLedCode, tiaGain, ppgGain, ledOn), DimmingTrace(), 0) ==
      Run(Settings(48, NominalTiaGain, ppgGain, ledOn), 16, Balanced)
  {
    var t := DimmingTrace();
    assert forall i :: 0 <= i < 15 ==> TooHigh(t[i]);
    BalanceLedDims(Settings(MaxLedCode, tiaGain, ppgGain, ledOn), t, 0, 15);
  }
}
