// Frame/millisecond conversions and the window size: the module-level
// constants and helper functions at the top of flappybird.py.

module Screen {
  /** Width of the window: the 284 px background image tiled twice. */
  const WIN_WIDTH: int := 284 * 2
  /** Height of the window in pixels. */
  const WIN_HEIGHT: int := 512
}

module Timing {
  /** The frame rate the game loop is paced at. */
  const FPS: real := 60.0

  /** frames_to_msec: how many milliseconds `frames` frames last at `fps`. */
  function FramesToMsec(frames: real, fps: real): (ms: real)
    requires fps != 0.0
    ensures ms * fps == 1000.0 * frames
  {
    1000.0 * frames / fps
  }

  /** msec_to_frames: how many frames fit in `ms` milliseconds at `fps`. */
  function MsecToFrames(ms: real, fps: real): (frames: real)
    ensures frames * 1000.0 == fps * ms
  {
    fps * ms / 1000.0
  }

  /** The two conversions are inverse to each other, in both orders. */
  lemma ConversionsRoundTrip(frames: real, ms: real, fps: real)
    requires fps != 0.0
    ensures MsecToFrames(FramesToMsec(frames, fps), fps) == frames
    ensures FramesToMsec(MsecToFrames(ms, fps), fps) == ms
  {
    var m := FramesToMsec(frames, fps);
    assert MsecToFrames(m, fps) * 1000.0 == fps * m;
    var f := MsecToFrames(ms, fps);
    assert FramesToMsec(f, fps) * fps == 1000.0 * f;
  }

  /** At the game's frame rate one frame lasts 50/3 ms. */
  lemma OneFrame()
    ensures FramesToMsec(1.0, FPS) == 50.0 / 3.0
  {
  }
}
