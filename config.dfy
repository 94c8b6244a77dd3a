/** The configuration constants the modelled functions read. */
module Config {
  /** Samples per window: the FFT length. */
  const SampleCount: nat := 64
  const ScreenWidth: nat := 128
  const ScreenHeight: nat := 64
  /** Columns of the spectrum plot. */
  const NumGraphPointsFft: nat := 32
  /** Magnitude units per pixel of column height. */
  const MagnitudeScaleDisplay: nat := 200
  /** Largest value the 16-bit ADC read returns. */
  const AdcMax: nat := 65535
}
