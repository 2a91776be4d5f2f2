/** The KickJrPPG driver object: the cached potentiometer codes and LED state,
    the setters and getters over them, and the two balance loops run in place
    on those fields. Bus and pin writes are left out; each setter keeps only
    the value it caches. */
module Driver {
  import opened Front
  import opened Balance

  class KickJrPPG {
    var ledCurrent: Byte
    var tiaGain: Byte
    var ppgGain: Byte
    /** true when the LED pin was last driven HIGH (LED on) */
    var ledOn: bool

    /** Does nothing, as the driver's constructor; no field has a known value
        until Begin. */
    constructor ()
    {
    }

    /** The driver's state as a value, for stating what the balance loops do. */
    function State(): Settings
      reads this
    {
      Settings(ledCurrent, tiaGain, ppgGain, ledOn)
    }

    /** A `const` getter: reads the object only, and reports the cached
        value the balance loops work on. */
    function GetLEDStatus(): (r: bool)
      reads this
      ensures r == State().ledOn
    {
      ledOn
    }

    /** A `const` getter: reads the object only, and reports the cached
        value the balance loops work on. */
    function GetLEDCurrent(): (r: Byte)
      reads this
      ensures r == State().ledCurrent
    {
      ledCurrent
    }

    /** A `const` getter: reads the object only, and reports the cached
        value the balance loops work on. */
    function GetTIAGain(): (r: Byte)
      reads this
      ensures r == State().tiaGain
    {
      tiaGain
    }

    /** A `const` getter: reads the object only, and reports the cached
        value the balance loops work on. */
    function GetPPGGain(): (r: Byte)
      reads this
      ensures r == State().ppgGain
    {
      ppgGain
    }

    /** Turns the LED off and selects the dimmest LED-current code. */
    method Begin()
      modifies this
      ensures !GetLEDStatus() && GetLEDCurrent() == MaxLedCode
      ensures GetTIAGain() == old(GetTIAGain()) && GetPPGGain() == old(GetPPGGain())
    {
      TurnLEDOff();
      SetLEDCurrent(MaxLedCode);
    }

    method TurnLEDOn()
      modifies this
      ensures GetLEDStatus()
      ensures GetLEDCurrent() == old(GetLEDCurrent())
      ensures GetTIAGain() == old(GetTIAGain()) && GetPPGGain() == old(GetPPGGain())
    {
      ledOn := true;
    }

    method TurnLEDOff()
      modifies this
      ensures !GetLEDStatus()
      ensures GetLEDCurrent() == old(GetLEDCurrent())
      ensures GetTIAGain() == old(GetTIAGain()) && GetPPGGain() == old(GetPPGGain())
    {
      ledOn := false;
    }

    /** Codes above 63 are silently replaced by 63 before they are written. */
    method SetLEDCurrent(val: Byte)
      modifies this
      ensures GetLEDCurrent() == ClampLedCode(val) && GetLEDCurrent() <= MaxLedCode
      ensures GetLEDStatus() == old(GetLEDStatus())
      ensures GetTIAGain() == old(GetTIAGain()) && GetPPGGain() == old(GetPPGGain())
    {
      var code := val;
      if code > MaxLedCode {
        code := MaxLedCode;
      }
      ledCurrent := code;
    }

    /** Stores the code as given: no clamp, unlike the LED-current setter. */
    method SetTIAGain(gain: Byte)
      modifies this
      ensures GetTIAGain() == gain
      ensures GetLEDStatus() == old(GetLEDStatus()) && GetLEDCurrent() == old(GetLEDCurrent())
      ensures GetPPGGain() == old(GetPPGGain())
    {
      tiaGain := gain;
    }

    /** Stores the code as given: no clamp, unlike the LED-current setter. */
    method SetPPGGain(gain: Byte)
      modifies this
      ensures GetPPGGain() == gain
      ensures GetLEDStatus() == old(GetLEDStatus()) && GetLEDCurrent() == old(GetLEDCurrent())
      ensures GetTIAGain() == old(GetTIAGain())
    {
      ppgGain := gain;
    }

    /** One ADC sample of the TIA output: the channel's reading at position
        `at`. Sampling changes no setting (no modifies clause). */
    method GetTIA(tiaChannel: seq<Sample>, at: nat) returns (v: Sample)
      requires at < |tiaChannel|
      ensures v == tiaChannel[at]
    {
      v := tiaChannel[at];
    }

    /** One ADC sample of the bandpass (PPG) output; changes no setting either. */
    method GetPPG(ppgChannel: seq<Sample>, at: nat) returns (v: Sample)
      requires at < |ppgChannel|
      ensures v == ppgChannel[at]
    {
      v := ppgChannel[at];
    }

    /** balanceLEDCurrent: steps the LED-current code one unit per out-of-band
        sample, handing off to BalanceTIAGain when the code is saturated. It
        takes samples from `readings[at]` on and ends exactly as the function
        BalanceLed says: same settings, same position, same outcome. */
    method BalanceLEDCurrent(readings: seq<Sample>, at: nat) returns (next: nat, outcome: Outcome)
      requires at <= |readings|
      modifies this
      ensures Run(State(), next, outcome) == BalanceLed(old(State()), readings, at)
      decreases |readings| - at
    {
      ghost var start := State();
      SetTIAGain(NominalTiaGain);
      if at == |readings| {
        return at, Exhausted;
      }
      var vtia := GetTIA(readings, at);
      next := at + 1;
      while !InBand(vtia)
        invariant at < next <= |readings| && vtia == readings[next - 1]
        invariant LedLoop(State(), readings, next) == BalanceLed(start, readings, at)
        decreases |readings| - next
      {
        ghost var before, taken := State(), next;
        if TooHigh(vtia) && ledCurrent > 0 {
          SetLEDCurrent(ledCurrent - 1);
          assert LedStep(before, vtia) == Adjusted(State());
        } else if TooLow(vtia) && ledCurrent < MaxLedCode {
          SetLEDCurrent(ledCurrent + 1);
          assert LedStep(before, vtia) == Adjusted(State());
        } else {
          var handed;
          next, handed := BalanceTIAGain(readings, next);
          assert LedStep(before, vtia) == HandOff;
        }
        assert (State(), next) == LedPass(before, readings, taken);
        if next == |readings| {
          return next, Exhausted;
        }
        vtia := GetTIA(readings, next);
        next := next + 1;
      }
      outcome := Balanced;
    }

    /** balanceTIAGain: steps the TIA gain one unit per out-of-band sample,
        handing off to BalanceLEDCurrent when the gain is saturated. It ends
        exactly as the function BalanceTia says. */
    method BalanceTIAGain(readings: seq<Sample>, at: nat) returns (next: nat, outcome: Outcome)
      requires at <= |readings|
      modifies this
      ensures Run(State(), next, outcome) == BalanceTia(old(State()), readings, at)
      decreases |readings| - at
    {
      ghost var start := State();
      if at == |readings| {
        return at, Exhausted;
      }
      var vtia := GetTIA(readings, at);
      next := at + 1;
      while !InBand(vtia)
        invariant at < next <= |readings| && vtia == readings[next - 1]
        invariant TiaLoop(State(), readings, next) == BalanceTia(start, readings, at)
        decreases |readings| - next
      {
        ghost var before, taken := State(), next;
        if TooHigh(vtia) && tiaGain > 0 {
          SetTIAGain(tiaGain - 1);
          assert TiaStep(before, vtia) == Adjusted(State());
        } else if TooLow(vtia) && tiaGain < MaxGainCode {
          SetTIAGain(tiaGain + 1);
          assert TiaStep(before, vtia) == Adjusted(State());
        } else {
          var handed;
          next, handed := BalanceLEDCurrent(readings, next);
          assert TiaStep(before, vtia) == HandOff;
        }
        assert (State(), next) == TiaPass(before, readings, taken);
        if next == |readings| {
          return next, Exhausted;
        }
        vtia := GetTIA(readings, next);
        next := next + 1;
      }
      outcome := Balanced;
    }
  }
}
