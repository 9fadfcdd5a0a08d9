// The bird (class Bird of flappybird.py): its constants, the per-frame
// kinematics of Bird.update and the out-of-window test of the main loop.

module Birds {
  import opened Timing
  import Screen

  const WIDTH: int := 32
  const HEIGHT: int := 32
  /** Sink speed in pixels per millisecond while not climbing. */
  const SINK_SPEED: real := 0.18
  /** Average climb speed in pixels per millisecond. */
  const CLIMB_SPEED: real := 0.3
  /** Length of one complete climb in milliseconds. */
  const CLIMB_DURATION: real := 333.3

  /** How far the bird sinks in `deltaFrames` frames: 3 px per frame. */
  function SinkDistance(deltaFrames: real): (d: real)
    ensures d == 3.0 * deltaFrames
    ensures d > 0.0 <==> deltaFrames > 0.0
  {
    SINK_SPEED * FramesToMsec(deltaFrames, FPS)
  }

  /** How far a climb lifts the bird in `deltaFrames` frames, where `ease`
      stands for the cosine factor 1 - cos(frac_climb_done * pi), which lies
      in [0, 2]: 5 px per frame times that factor, so at most 10 px. */
  function ClimbDistance(deltaFrames: real, ease: real): (d: real)
    ensures d == 5.0 * deltaFrames * ease
    ensures 0.0 <= deltaFrames && 0.0 <= ease <= 2.0 ==> 0.0 <= d <= 10.0 * deltaFrames
  {
    CLIMB_SPEED * FramesToMsec(deltaFrames, FPS) * ease
  }

  /** The main loop's death test on the bird's height: it has touched the top
      of the window or reached the bottom edge. */
  predicate OutOfBounds(y: real)
  {
    0.0 >= y || y >= (Screen.WIN_HEIGHT - HEIGHT) as real
  }

  lemma InBoundsIsOpenInterval(y: real)
    ensures !OutOfBounds(y) <==> 0.0 < y < 480.0
  {
  }

  /** The new (y, msec_to_climb) of Bird.update. While climbing, y shrinks
      by the climb distance, where `ease` stands for the cosine factor
      1 - cos(frac_climb_done * pi), and the climb timer loses the elapsed
      time, possibly ending below 0. Otherwise the bird sinks and the timer
      stays. */
  function Flight(y: real, msecToClimb: real, deltaFrames: real, ease: real): (r: (real, real))
    ensures msecToClimb > 0.0 ==> r.1 == msecToClimb - 50.0 / 3.0 * deltaFrames
    ensures msecToClimb > 0.0 && 0.0 <= deltaFrames && 0.0 <= ease <= 2.0 ==>
      y - 10.0 * deltaFrames <= r.0 <= y
    ensures msecToClimb <= 0.0 ==> r == (y + 3.0 * deltaFrames, msecToClimb)
  {
    if msecToClimb > 0.0 then (y - ClimbDistance(deltaFrames, ease), msecToClimb - FramesToMsec(deltaFrames, FPS))
    else (y + SinkDistance(deltaFrames), msecToClimb)
  }

  class Bird {
    /** The bird never moves horizontally. */
    const x: int
    var y: real
    /** Milliseconds left of the current climb; no climb when <= 0. */
    var msecToClimb: real

    constructor (x: int, y: real, msecToClimb: real)
      ensures this.x == x && this.y == y && this.msecToClimb == msecToClimb
    {
      this.x := x;
      this.y := y;
      this.msecToClimb := msecToClimb;
    }

    /** Bird.update, implemented in place on the two fields. */
    method Update(deltaFrames: real, ease: real)
      modifies this`y, this`msecToClimb
      ensures (y, msecToClimb) == Flight(old(y), old(msecToClimb), deltaFrames, ease)
    {
      if msecToClimb > 0.0 {
        y := y - ClimbDistance(deltaFrames, ease);
        msecToClimb := msecToClimb - FramesToMsec(deltaFrames, FPS);
      } else {
        y := y + SinkDistance(deltaFrames);
      }
    }
  }
}
