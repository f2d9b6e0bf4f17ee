/** Frames as the controller sees them.  Pixel content is foreign (OpenCV);
    a frame is an opaque handle, and the composite frame records which
    camera frame and which log rows it was built from. */
module Frames {
  import opened Panel

  /** A camera frame, or the blurred grayscale copy the motion detector keeps. */
  datatype Image = Image(id: nat)

  /** `_build_combined_frame`: the annotated frame beside the drawn log panel. */
  datatype Composite = Composite(frame: Image, panel: seq<PanelRow>)
}
