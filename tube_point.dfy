/** One oriented sample along the tube's curve, and one control point. */
module TubePoints {
  import opened Geometry

  /** A curve sample. `normal` is never assigned by the sampler, so it keeps
      the zero vector a fresh object has; `isPoint` marks samples that are
      the control points themselves (as opposed to interpolated ones). */
  datatype TubePoint = TubePoint(
    position: Vec3,
    normal: Vec3,
    direction: Vec3,
    right: Vec3,
    isPoint: bool)

  /** The part of a control point's transform the sampler reads. */
  datatype ControlPoint = ControlPoint(position: Vec3, up: Vec3)
}
