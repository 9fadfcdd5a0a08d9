// The quantised world state that keys the value table: the triple built
// from the bird and the front pipe at every decision interval.

module Encoder {

  /** (vertical offset to the front pipe's gap reference line, horizontal
      offset to the front pipe, dead). */
  datatype State = State(dy: int, dx: int, dead: bool)

  /** t is r with its fractional part dropped: between 0 and r, less than
      one away from r. */
  ghost predicate TowardZero(r: real, t: int)
  {
    if r >= 0.0 then 0 <= t && t as real <= r < t as real + 1.0
    else t <= 0 && t as real - 1.0 < r <= t as real
  }

  /** Python's int() on a float: truncation toward zero (not floor, not
      rounding). */
  function Trunc(r: real): (t: int)
    ensures TowardZero(r, t)
  {
    if r >= 0.0 then r.Floor else -((-r).Floor)
  }

  /** TowardZero pins down a single integer, so Trunc is the only function
      meeting its contract. */
  lemma TowardZeroUnique(r: real, t1: int, t2: int)
    requires TowardZero(r, t1) && TowardZero(r, t2)
    ensures t1 == t2
  {
  }

  /** Truncation differs from floor on negative non-integers. */
  lemma TruncOfNegative()
    ensures Trunc(-0.5) == 0 && (-0.5).Floor == -1
    ensures Trunc(-75.9) == -75
  {
  }

  /** The y that the vertical offset is measured from: the top of the bottom
      pipe less 27 px. */
  function GapReference(bottomPieces: int): int
  {
    512 - bottomPieces * 32 - 27
  }

  /** The state of flappybird.py:438, from the bird's height, the front
      pipe's bottom piece count and position, and the death flag. */
  function Quantise(birdY: real, bottomPieces: int, pipeX: real, dead: bool): (s: State)
    ensures TowardZero(birdY - GapReference(bottomPieces) as real, s.dy)
    ensures TowardZero(pipeX - 50.0, s.dx)
    ensures s.dead == dead
  {
    State(Trunc(birdY - GapReference(bottomPieces) as real), Trunc(pipeX - 50.0), dead)
  }

  /** The annotated example of the main loop: bird at 240, a fresh pipe at
      567 whose bottom pipe (10 pieces) puts the reference line at 165. */
  lemma AnnotatedExample()
    ensures GapReference(10) == 165
    ensures Quantise(240.0, 10, 567.0, false) == State(75, 517, false)
  {
  }
}
