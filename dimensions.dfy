/** The width and height of a video frame, in pixels. */
module VideoDimensions {
  import opened Numeric

  datatype Dimensions = Dimensions(width: int32, height: int32)

  /** `Dimensions.zero`: no known size. */
  const Zero: Dimensions := Dimensions(0, 0)
}
