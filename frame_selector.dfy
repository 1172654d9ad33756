/**
 * The scrubber bar under the video (FrameSelector.swift): a tap or a drag
 * turns a position into a frame index, which is clamped into the video before
 * it is written to the bound frame number; the progress fill is drawn only
 * for an index inside the video. The position-to-index arithmetic works on
 * floating point and is not modelled: the truncated index is an input here.
 */
module FrameSelector {

  function Min(a: int, b: int): int { if a <= b then a else b }
  function Max(a: int, b: int): int { if a >= b then a else b }

  /** `max(min(selectedFrame, frameCount - 1), 0)`, written by both gestures. */
  function ClampFrame(selectedFrame: int, frameCount: int): (f: int)
    ensures f >= 0
    ensures frameCount >= 1 ==> f <= frameCount - 1
    ensures frameCount <= 0 ==> f == 0
    ensures 0 <= selectedFrame <= frameCount - 1 ==> f == selectedFrame
    ensures frameCount >= 1 && selectedFrame > frameCount - 1 ==> f == frameCount - 1
    ensures selectedFrame < 0 ==> f == 0
  {
    Max(Min(selectedFrame, frameCount - 1), 0)
  }

  /** The guard in front of the progress fill. */
  function FillDrawn(frameNumber: int, frameCount: int): (b: bool)
    // a drawn fill has a non-negative divisor, zero for a one-frame video
    ensures b && frameNumber >= 0 ==> frameCount - 1 >= 0 && frameNumber <= frameCount - 1
    ensures frameNumber >= frameCount ==> !b
  {
    frameNumber < frameCount
  }

  /** Clamping a clamped index changes nothing. */
  lemma ClampIdempotent(selectedFrame: int, frameCount: int)
    ensures ClampFrame(ClampFrame(selectedFrame, frameCount), frameCount) == ClampFrame(selectedFrame, frameCount)
  {
  }

  /** After a tap or drag on a non-empty video the progress fill is drawn. */
  lemma FillDrawnAfterGesture(selectedFrame: int, frameCount: int)
    requires frameCount >= 1
    ensures FillDrawn(ClampFrame(selectedFrame, frameCount), frameCount)
  {
  }
}
