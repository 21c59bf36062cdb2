/** Every index list a shuffle can be given is drawn by some stream, so averages over index lists are averages over play. */
module Streams {
  import opened Arithmetic
  import opened Rng
  import opened Shuffle

  /** The least draw that selects k among 0..n-1. */
  lemma LeastDraw(k: nat, n: nat)
    requires k < n <= DRAWS
    ensures Boundary(k, n, DRAWS) < DRAWS && Scale(Boundary(k, n, DRAWS), n, DRAWS) == k
  {
    var lo, hi := Boundary(k, n, DRAWS), Boundary(k + 1, n, DRAWS);
    DrawsAreAnInterval(k, n, DRAWS);
    DrawsPerValue(k, n, DRAWS);
    IntervalSize(lo, hi);
    EnoughDraws(n);
    assert lo in Interval(lo, hi);
    hide Boundary;
    hide Scale;
  }

  lemma EnoughDraws(n: nat)
    requires 0 < n <= DRAWS
    ensures DRAWS / n >= 1
  {
    DivBounds(DRAWS, n);
    var q := DRAWS / n;
    if q <= 0 {
      MulMonotone(q, 0, n);
    }
  }

  /** The draw at this cursor of a stream that selects js from `offset` on. */
  function DrawFor(js: seq<nat>, offset: nat, cursor: nat): Draw {
    var i := cursor - offset;
    if 0 <= i < |js| && js[i] <= i && i < DRAWS then
      LeastDraw(js[i], i + 1);
      Boundary(js[i], i + 1, DRAWS)
    else 0
  }

  function StreamFor(js: seq<nat>, offset: nat): Stream {
    (cursor: nat) => DrawFor(js, offset, cursor)
  }

  /** The stream draws exactly these indices. */
  lemma StreamDrawsIndices(js: seq<nat>, offset: nat)
    requires IsIndices(js) && |js| <= DRAWS
    ensures Indices(StreamFor(js, offset), offset, |js|) == js
  {
    forall i | 0 <= i < |js|
      ensures Drawn(StreamFor(js, offset), offset, i) == js[i]
    {
      LeastDraw(js[i], i + 1);
    }
    hide Boundary;
    hide Scale;
  }
}
