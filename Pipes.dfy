// The obstacle (class PipePair of flappybird.py): piece counts, pixel
// heights, visibility and horizontal motion.

module Pipes {
  import opened Timing
  import opened Streams
  import Screen
  import Birds

  /** Width of a pipe piece, and so of the whole pipe pair. */
  const WIDTH: int := 80
  const PIECE_HEIGHT: int := 32
  /** Milliseconds between two new pipe pairs. */
  const ADD_INTERVAL: int := 3000
  /** Horizontal scroll speed in pixels per millisecond. */
  const ANIMATION_SPEED: real := 0.18
  /** Every pipe pair starts at float(WIN_WIDTH - 1). */
  const SPAWN_X: real := (Screen.WIN_WIDTH - 1) as real

  /** total_pipe_body_pieces: the window height minus room for the bird to
      fit through (3 bird heights) and for 2 end pieces plus 1 body piece,
      counted in pieces. */
  function TotalPipeBodyPieces(): (n: int)
    ensures n == 10
  {
    (Screen.WIN_HEIGHT - 3 * Birds.HEIGHT - 3 * PIECE_HEIGHT) / PIECE_HEIGHT
  }

  /** The (top, bottom) piece counts of a pipe pair whose bottom body was
      drawn as `draw` pieces: the top body takes the rest of the budget and
      each pipe gets one more for its end piece. */
  function PieceCounts(draw: int): (counts: (int, int))
    requires 1 <= draw <= TotalPipeBodyPieces()
    ensures counts.1 - 1 == draw
    ensures (counts.0 - 1) + (counts.1 - 1) == TotalPipeBodyPieces()
    ensures counts.0 + counts.1 == 12
    ensures 1 <= counts.0 <= 10 && 2 <= counts.1 <= 11
  {
    var bottom := draw;
    var top := TotalPipeBodyPieces() - bottom;
    (top + 1, bottom + 1)
  }

  /** Whatever the draw, the gap between the two pipes is 128 px high: four
      bird heights. */
  lemma GapIsConstant(draw: int)
    requires 1 <= draw <= TotalPipeBodyPieces()
    ensures Screen.WIN_HEIGHT - (PieceCounts(draw).0 + PieceCounts(draw).1) * PIECE_HEIGHT
            == 4 * Birds.HEIGHT
  {
  }

  /** How far a pipe pair scrolls left in `deltaFrames` frames: 3 px per frame. */
  function Drift(deltaFrames: real): (d: real)
    ensures d == 3.0 * deltaFrames
  {
    ANIMATION_SPEED * FramesToMsec(deltaFrames, FPS)
  }

  /** Some column of a pair whose left edge is at `x` is inside the window. */
  predicate VisibleAt(x: real)
  {
    -(WIDTH as real) < x < Screen.WIN_WIDTH as real
  }

  class PipePair {
    var x: real
    var scoreCounted: bool
    /** Pieces in the top pipe, including its end piece. */
    const topPieces: int
    /** Pieces in the bottom pipe, including its end piece. */
    const bottomPieces: int
    /** Which value of the obstacle stream laid this pair out. */
    ghost const drawIndex: nat

    /** PipePair.__init__: start at the right edge, draw the bottom body
        length from the obstacle stream `rng`, give the rest to the top. */
    constructor (rng: Stream)
      requires rng.Valid()
      modifies rng
      ensures x == SPAWN_X && !scoreCounted
      ensures drawIndex == old(rng.pos) && rng.pos == old(rng.pos) + 1
      ensures (topPieces, bottomPieces)
              == PieceCounts(FromUniform(rng.values(drawIndex), 1, TotalPipeBodyPieces()))
    {
      x := SPAWN_X;
      scoreCounted := false;
      drawIndex := rng.pos;
      var total := TotalPipeBodyPieces();
      var bottom := rng.RandInt(1, total);
      var top := total - bottom;
      topPieces := top + 1;
      bottomPieces := bottom + 1;
    }

    function TopHeightPx(): int
    {
      topPieces * PIECE_HEIGHT
    }

    function BottomHeightPx(): int
    {
      bottomPieces * PIECE_HEIGHT
    }

    /** The property `visible`: some column of the pair is inside the window. */
    predicate Visible()
      reads this`x
    {
      VisibleAt(x)
    }

    /** PipePair.update: scroll left by ANIMATION_SPEED px per millisecond. */
    method Update(deltaFrames: real)
      modifies this`x
      ensures x == old(x) - Drift(deltaFrames)
    {
      x := x - Drift(deltaFrames);
    }
  }

  /** The pixel heights of a pair whose pieces come from PieceCounts: the top
      pipe covers [0, TopHeightPx) and the bottom one [512 - BottomHeightPx,
      512), leaving a 128 px gap whose upper edge is between 32 and 320. */
  lemma PixelHeights(p: PipePair, draw: int)
    requires 1 <= draw <= TotalPipeBodyPieces()
    requires (p.topPieces, p.bottomPieces) == PieceCounts(draw)
    ensures p.TopHeightPx() == (TotalPipeBodyPieces() - draw + 1) * PIECE_HEIGHT
    ensures p.BottomHeightPx() == (draw + 1) * PIECE_HEIGHT
    ensures Screen.WIN_HEIGHT - p.BottomHeightPx() - p.TopHeightPx() == 128
    ensures 32 <= p.TopHeightPx() <= 320
  {
  }
}
