/** The last step of the heading computation (Magnetometer.cpp): the angle
    in degrees, which the trigonometry yields between -180 and 180, is
    moved into [0, 360). The trigonometry itself is not part of this model. */
module Magnetometer {

  /** Adds a full turn to a negative angle and keeps any other. */
  function NormalizeDegrees(degrees: real): (r: real)
    requires -180.0 <= degrees <= 180.0
    ensures 0.0 <= r < 360.0
    ensures r == degrees || r == degrees + 360.0
    ensures degrees >= 0.0 ==> r == degrees
  {
    if degrees < 0.0 then degrees + 360.0 else degrees
  }
}
