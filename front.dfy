/** Codes, samples and the target band of the KickJr PPG analog front end. */
module Front {

  /** An unsigned 8-bit potentiometer code (`uint8_t` in the driver). */
  type Byte = x: int | 0 <= x < 256

  /** A 12-bit ADC reading of the TIA or bandpass output. */
  type Sample = x: int | 0 <= x <= AdcMax

  const AdcMax := 4095

  /** Largest code the AD5171 (LED current) accepts; also the dimmest setting. */
  const MaxLedCode: Byte := 63

  /** Largest code of an AD5242 channel (TIA gain, bandpass gain). */
  const MaxGainCode: Byte := 255

  /** TIA gain code that balancing the LED current starts from (about 67 kOhm). */
  const NominalTiaGain: Byte := 17

  /** The band the TIA output is balanced into, about half scale plus or minus 10%. */
  const BandLow := 1850
  const BandHigh := 2250

  predicate TooHigh(v: Sample) { v > BandHigh }
  predicate TooLow(v: Sample) { v < BandLow }
  predicate InBand(v: Sample) { BandLow <= v <= BandHigh }

  /** The cached state of the driver: the last codes written to the potentiometers
      and the last level written to the LED pin. */
  datatype Settings = Settings(ledCurrent: Byte, tiaGain: Byte, ppgGain: Byte, ledOn: bool)

  /** The code the LED-current setter actually writes: out-of-range codes are
      silently replaced by the largest legal one. */
  function ClampLedCode(val: Byte): (r: Byte)
    ensures r <= MaxLedCode
    ensures val <= MaxLedCode ==> r == val
    ensures val > MaxLedCode ==> r == MaxLedCode
  {
    if val > MaxLedCode then MaxLedCode else val
  }
}
