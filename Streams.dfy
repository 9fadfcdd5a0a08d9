// The two random streams of the game (obstacle layout and exploration).
// The Mersenne Twister itself is not modelled: a stream is the fixed,
// infinite sequence of uniform values its generator yields, plus how far
// along it the game has read.

module Streams {

  /** randint(lo, hi) computed from one uniform value u in [0, 1): the range
      is cut into hi - lo + 1 equal slices and u picks one. */
  function FromUniform(u: real, lo: int, hi: int): (r: int)
    requires 0.0 <= u < 1.0 && lo <= hi
    ensures lo <= r <= hi
  {
    var width := hi - lo + 1;
    assert u * width as real < width as real by {
      assert (1.0 - u) * width as real > 0.0;
    }
    lo + (u * width as real).Floor
  }

  /** Every outcome lo + k is produced by exactly the slice of u of width
      1/(hi - lo + 1) that starts at k/(hi - lo + 1): each outcome is equally
      likely when u is uniform. */
  lemma FromUniformSlice(u: real, lo: int, hi: int, k: int)
    requires 0.0 <= u < 1.0 && lo <= hi && 0 <= k <= hi - lo
    ensures FromUniform(u, lo, hi) == lo + k
        <==> k as real <= u * (hi - lo + 1) as real < (k + 1) as real
  {
  }

  /** The exploration roll randint(1, 10) is below 3 exactly when u < 0.2. */
  lemma RollBelowThree(u: real)
    requires 0.0 <= u < 1.0
    ensures FromUniform(u, 1, 10) < 3 <==> u < 0.2
  {
    if u < 0.2 {
      assert u * 10.0 < 2.0;
    } else {
      assert u * 10.0 >= 2.0;
    }
  }

  /** The coin randint(0, 1) is 1 exactly when u >= 0.5. */
  lemma CoinIsOne(u: real)
    requires 0.0 <= u < 1.0
    ensures FromUniform(u, 0, 1) == 1 <==> u >= 0.5
  {
    if u < 0.5 {
      assert u * 2.0 < 1.0;
    } else {
      assert u * 2.0 >= 1.0;
    }
  }

  /** All values a generator can yield lie in [0, 1). */
  ghost predicate Uniform(values: nat -> real)
  {
    forall i: nat :: 0.0 <= values(i) < 1.0
  }

  /** One saved generator state of the source (an entry of random_state):
      the values its generator yields, and the index of the next one. */
  class Stream {
    const values: nat -> real
    var pos: nat

    ghost predicate Valid()
    {
      Uniform(values)
    }

    constructor (values: nat -> real)
      requires Uniform(values)
      ensures Valid() && this.values == values && pos == 0
    {
      this.values := values;
      pos := 0;
    }

    /** setstate, randint(lo, hi), getstate: draw the next value. */
    method RandInt(lo: int, hi: int) returns (r: int)
      requires Valid() && lo <= hi
      modifies this`pos
      ensures pos == old(pos) + 1
      ensures r == FromUniform(values(old(pos)), lo, hi)
      ensures lo <= r <= hi
    {
      r := FromUniform(values(pos), lo, hi);
      pos := pos + 1;
    }

    /** random.seed(0) followed by getstate: the stream starts over at the
        first value of its sequence. */
    method Reseed()
      modifies this`pos
      ensures pos == 0
    {
      pos := 0;
    }
  }
}
