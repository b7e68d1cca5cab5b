/** The zero-engine-speed guard and the fixed points and ordering of the
    propeller-slip percentage. */
module SlipLaws {
  import opened NavCalc

  /** A zero pitch or a zero rpm yields the sentinel, whatever the observed
      speed. */
  lemma SentinelWhenPropellerIdle(pitch: real, rpm: real, actualSpeed: real)
    ensures CalculateSlip(0.0, rpm, actualSpeed) == SlipSentinel
    ensures CalculateSlip(pitch, 0.0, actualSpeed) == SlipSentinel
  {
  }

  /** Sailing at exactly the engine speed is zero slip. */
  lemma NoSlipAtEngineSpeed(pitch: real, rpm: real)
    requires pitch != 0.0 && rpm != 0.0
    ensures CalculateSlip(pitch, rpm, EngineSpeed(pitch, rpm)) == Slip(0.0, EngineSpeed(pitch, rpm))
  {
  }

  /** Making no way over the ground is a slip of one hundred percent. */
  lemma FullSlipWhenStationary(pitch: real, rpm: real)
    requires pitch != 0.0 && rpm != 0.0
    ensures CalculateSlip(pitch, rpm, 0.0) == Slip(100.0, EngineSpeed(pitch, rpm))
  {
    var e := EngineSpeed(pitch, rpm);
    assert e != 0.0;
    assert (e - 0.0) / e == 1.0;
  }

  /** With the propeller driving ahead, a faster observed speed means less
      slip. */
  lemma SlipDecreasesWithSpeed(pitch: real, rpm: real, a1: real, a2: real)
    requires EngineSpeed(pitch, rpm) > 0.0
    requires a1 < a2
    ensures CalculateSlip(pitch, rpm, a1).percent > CalculateSlip(pitch, rpm, a2).percent
  {
  }
}
