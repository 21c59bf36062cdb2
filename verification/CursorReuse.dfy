/** Which instant games read a draw twice when a result is forced. */
module CursorReuse {
  import opened Arithmetic
  import opened Boards
  import opened Cursors
  import opened Rng
  import opened Shuffle
  import opened TableGames

  ghost predicate AgreeExcept(s: Stream, t: Stream, at: nat) {
    forall cursor: nat :: cursor != at ==> s(cursor) == t(cursor)
  }

  /** The cursor of the draw that picks a forced Plinko round's bucket, and the first of those that shuffle its path. */
  const BUCKET_CURSOR: nat := 90
  const PATH_CURSOR: nat := 80

  function PathOrder(rows: Rows, s: Stream): seq<nat> {
    Shuffled(Positions(RowCount(rows)), Indices(s, PATH_CURSOR, RowCount(rows)))
  }

  ghost predicate PathIgnoresBucket(rows: Rows) {
    forall s, t :: AgreeExcept(s, t, BUCKET_CURSOR) ==> PathOrder(rows, s) == PathOrder(rows, t)
  }

  function OneDraw(at: nat, v: Draw): Stream {
    (cursor: nat) => if cursor == at then v else 0
  }

  lemma LowestAndHighestDiffer(n: nat)
    requires 1 < n <= DRAWS
    ensures Scale(0, n, DRAWS) == 0 && Scale(DRAWS - 1, n, DRAWS) == n - 1
  {
    assert (DRAWS - 1) * n == (n - 1) * DRAWS + (DRAWS - n);
    DivIs((DRAWS - 1) * n, DRAWS, n - 1);
  }

  /** A forced Plinko round's path reuses the draw that picked its bucket exactly with 12 or 16 rows. */
  lemma PlinkoReusesBucketDraw(rows: Rows)
    ensures PathIgnoresBucket(rows) <==> rows == Eight
  {
    var n := RowCount(rows);
    if rows == Eight {
      forall s, t | AgreeExcept(s, t, BUCKET_CURSOR)
        ensures PathOrder(rows, s) == PathOrder(rows, t)
      {
        SameIndices(s, t, PATH_CURSOR, n);
      }
    } else {
      var s, t := OneDraw(BUCKET_CURSOR, 0), OneDraw(BUCKET_CURSOR, DRAWS - 1);
      LowestAndHighestDiffer(11);
      IndexIsDrawn(s, PATH_CURSOR, n, 10);
      IndexIsDrawn(t, PATH_CURSOR, n, 10);
      ShuffleIsOneToOne(Positions(n), Indices(s, PATH_CURSOR, n));
      ShuffleIsOneToOne(Positions(n), Indices(t, PATH_CURSOR, n));
      hide Shuffled;
      hide Unshuffled;
      hide Indices;
      assert AgreeExcept(s, t, BUCKET_CURSOR);
    }
  }

  /** The cursor of the draw for the hits of a forced Keno loss, and the first of those that shuffle the misses. */
  const HITS_CURSOR: nat := 70
  const MISS_CURSOR: nat := 40

  ghost predicate HitsIgnoreDraw(picks: nat, win: bool) {
    forall v: Draw, w: Draw :: DealtHits(picks, v, win) == DealtHits(picks, w, win)
  }

  function MissOrder(picks: seq<nat>, s: Stream): seq<nat> {
    ShuffledAt(Unpicked(picks), s, MISS_CURSOR)
  }

  ghost predicate MissesIgnoreDraw(picks: seq<nat>) {
    forall s, t :: AgreeExcept(s, t, HITS_CURSOR) ==> MissOrder(picks, s) == MissOrder(picks, t)
  }

  /** Changing the draw for the hits alone can change the order of the misses. */
  lemma MissesFollowDraw(picks: seq<nat>)
    requires ValidPicks(picks)
    ensures MISS_CURSOR < HITS_CURSOR < MISS_CURSOR + |Unpicked(picks)| && !MissesIgnoreDraw(picks)
  {
    assert KENO_SPOT_COUNT == 50;
    OthersAreTheRest(picks);
    PickCount(picks);
    hide Unpicked;
    hide ValidPicks;
    var others := Unpicked(picks);
    var s, t := OneDraw(HITS_CURSOR, 0), OneDraw(HITS_CURSOR, DRAWS - 1);
    LowestAndHighestDiffer(31);
    IndexIsDrawn(s, MISS_CURSOR, |others|, 30);
    IndexIsDrawn(t, MISS_CURSOR, |others|, 30);
    ShuffleIsOneToOne(others, Indices(s, MISS_CURSOR, |others|));
    ShuffleIsOneToOne(others, Indices(t, MISS_CURSOR, |others|));
    hide Shuffled;
    hide Unshuffled;
    hide Indices;
    assert AgreeExcept(s, t, HITS_CURSOR);
  }

  lemma HitsFollowDraw(picks: nat, win: bool)
    requires 1 <= picks <= 10
    ensures HitsIgnoreDraw(picks, win) <==> win || KenoMinPayingHits(picks) == 1
  {
    KenoPaysFrom(picks, 0);
    hide KenoMinPayingHits;
    hide KenoPayout;
    var need := KenoMinPayingHits(picks);
    if !win && need > 1 {
      LowestAndHighestDiffer(need);
      assert DealtHits(picks, 0, win) == 0 && DealtHits(picks, DRAWS - 1, win) == need - 1;
    }
  }

  /**
   * For every valid pick list the order of the misses depends on the draw for the hits; that draw matters to the hits
   * exactly on a forced loss that can be dealt with more than one number of hits.
   */
  lemma KenoReusesHitsDraw(picks: seq<nat>, win: bool)
    requires ValidPicks(picks)
    ensures !MissesIgnoreDraw(picks)
    ensures HitsIgnoreDraw(|picks|, win) <==> win || KenoMinPayingHits(|picks|) == 1
  {
    hide *;
    MissesFollowDraw(picks);
    PickCount(picks);
    HitsFollowDraw(|picks|, win);
  }
}
