/** The two constant tables every other part of the core reads. */
module Tables {
  import opened KeyUtils

  /**
   * `CONVERSION_DBA`: the A-weighting offset, in dB, to add to a level in
   * each band (keyed by centre frequency in Hz).
   */
  const AWeightingOffsets: map<real, real> := map[
    0.3 := -85.4,
    8.0 := -77.8,
    10.0 := -70.4,
    12.5 := -63.4,
    16.0 := -56.7,
    20.0 := -50.5,
    25.0 := -44.7,
    31.5 := -39.4,
    40.0 := -34.6,
    50.0 := -30.2,
    63.0 := -26.2,
    80.0 := -22.5,
    100.0 := -19.1,
    125.0 := -16.1,
    160.0 := -13.4,
    200.0 := -10.9,
    250.0 := -8.6,
    315.0 := -6.6,
    400.0 := -4.8,
    500.0 := -3.2,
    630.0 := -1.9,
    800.0 := -0.8,
    1000.0 := 0.0,
    1250.0 := 0.6,
    1600.0 := 1.0,
    2000.0 := 1.2,
    2500.0 := 1.3,
    3150.0 := 1.2,
    4000.0 := 1.0,
    5000.0 := 0.5,
    6300.0 := -0.1,
    8000.0 := -1.1,
    10000.0 := -2.5,
    12500.0 := -4.3,
    16000.0 := -6.6,
    20000.0 := -9.3
  ]

  /** `BANDE_DE_TIERS_DOCTAVE`: the third-octave centre frequencies, 25 Hz to 20 kHz. */
  const ThirdOctaveBands: seq<real> := [
    25.0, 31.5, 40.0, 50.0, 63.0, 80.0, 100.0, 125.0, 160.0, 200.0,
    250.0, 315.0, 400.0, 500.0, 630.0, 800.0, 1000.0, 1250.0, 1600.0, 2000.0,
    2500.0, 3150.0, 4000.0, 5000.0, 6300.0, 8000.0, 10000.0, 12500.0, 16000.0, 20000.0
  ]

  /** The registry holds 30 bands, strictly ascending. */
  lemma ThirdOctaveBandsAscending()
    ensures |ThirdOctaveBands| == 30
    ensures StrictlyAscending(ThirdOctaveBands)
  {
    AdjacentAscending(ThirdOctaveBands);
  }

  /**
   * Every registry band has an A-weighting offset; the offset table adds
   * exactly six lower frequencies (0.3, 8, 10, 12.5, 16 and 20 Hz).
   */
  lemma ThirdOctaveBandsWeighted()
    ensures forall f :: f in ThirdOctaveBands ==> f in AWeightingOffsets
    ensures forall f :: f in AWeightingOffsets <==>
      f in ThirdOctaveBands || f in {0.3, 8.0, 10.0, 12.5, 16.0, 20.0}
  {
  }
}
