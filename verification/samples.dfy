/** Values exchanged between the audio callback, the pitch estimator and the renderer. */
module Samples {

  /** A floating-point value as the visualizer sees it: a finite number or not-a-number.
      The pitch estimator reports "no voiced pitch", and a failure of its pitch analysis, as NaN. */
  datatype Float = NaN | Num(val: real)

  /** The comparison `x > 0` on a float: false for NaN. */
  predicate IsPositive(x: Float)
  {
    x.Num? && x.val > 0.0
  }

  /** One entry of the pitch history: the wall-clock time of the estimate and its result. */
  datatype PitchSample = PitchSample(time: real, pitch: Float)
}
