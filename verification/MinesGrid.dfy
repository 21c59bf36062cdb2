/** Where the mines of a round are laid. */
module MinesGrid {
  import opened Boards
  import opened Layouts
  import opened Mines
  import opened Rng
  import opened Shuffle
  import opened Sums

  datatype Forced = Honest | Decided(win: bool)

  const HOT_SPOTS: seq<nat> := [12, 0, 4, 20, 24, 6, 8, 16, 18]

  function Clamp(value: int, min: int, max: int): int {
    var raised := if value < min then min else value;
    if raised > max then max else raised
  }

  function Filter<T>(xs: seq<T>, p: T -> bool): (ys: seq<T>)
    ensures |ys| == Count(xs, p)
    ensures forall y <- ys :: y in xs && p(y)
  {
    if xs == [] then []
    else (if p(xs[0]) then [xs[0]] else []) + Filter(xs[1..], p)
  }

  function AsSet(tiles: seq<nat>): set<nat> {
    set tile <- tiles
  }

  function Least(a: nat, b: nat): nat {
    if a < b then a else b
  }

  /** The mined tiles. Only a forced loss bends the shuffle. */
  function BuildMinesGrid(mineCount: int, stream: Stream, forced: Forced): set<nat> {
    var shuffled := Shuffled(Positions(MINES_TILE_COUNT), Indices(stream, 0, MINES_TILE_COUNT));
    var count := Clamp(mineCount, 1, MINES_TILE_COUNT - 1);
    if forced == Decided(false) then
      var forcedMines := HOT_SPOTS[..Least(count, |HOT_SPOTS|)];
      var remaining := Filter(shuffled, Outside(AsSet(forcedMines)));
      AsSet(forcedMines + remaining[..Least(count - |forcedMines|, |remaining|)])
    else
      AsSet(shuffled[..count])
  }

  /** Unless a loss is forced, the grid is the plain shuffle's: a forced win changes nothing. */
  lemma HonestGridIsPlacement(mineCount: int, stream: Stream, forced: Forced)
    requires forced != Decided(false)
    ensures BuildMinesGrid(mineCount, stream, forced)
         == Placement(MINES_TILE_COUNT, Clamp(mineCount, 1, MINES_TILE_COUNT - 1))(Indices(stream, 0, MINES_TILE_COUNT))
  {
  }

  lemma {:induction false} FilterIsDistinct<T(!new)>(xs: seq<T>, p: T -> bool)
    requires Distinct(xs)
    ensures Distinct(Filter(xs, p))
  {
    if xs != [] {
      FilterIsDistinct(xs[1..], p);
    }
  }

  lemma HotSpotsAreTiles(k: nat)
    requires k <= |HOT_SPOTS|
    ensures Distinct(HOT_SPOTS[..k]) && forall tile <- HOT_SPOTS[..k] :: tile < MINES_TILE_COUNT
  {
  }

  lemma TilesAreTiles(n: nat, js: seq<nat>)
    requires |js| == n && IsIndices(js)
    ensures Distinct(Shuffled(Positions(n), js))
    ensures forall tile: nat :: tile in Shuffled(Positions(n), js) <==> tile < n
  {
    ShuffledIsPermutation(Positions(n), js);
    var shuffled := Shuffled(Positions(n), js);
    PermutationIsDistinct(Positions(n), shuffled);
    forall tile: nat
      ensures tile in shuffled <==> tile < n
    {
      assert tile in shuffled <==> tile in multiset(shuffled);
      assert tile in Positions(n) <==> tile in multiset(Positions(n));
      if tile < n {
        assert Positions(n)[tile] == tile;
      }
    }
  }

  /** Forced or not, the grid holds exactly the chosen number of mines, all on the board, so a safe tile is left. */
  lemma GridHasMineCount(mineCount: int, stream: Stream, forced: Forced)
    ensures var grid := BuildMinesGrid(mineCount, stream, forced);
            Within(grid, MINES_TILE_COUNT) && |grid| == Clamp(mineCount, 1, MINES_TILE_COUNT - 1)
  {
    var js := Indices(stream, 0, MINES_TILE_COUNT);
    var count := Clamp(mineCount, 1, MINES_TILE_COUNT - 1);
    if forced == Decided(false) {
      TilesAreTiles(MINES_TILE_COUNT, js);
      ForcedLossGrid(count, Shuffled(Positions(MINES_TILE_COUNT), js));
    } else {
      PlacementIsLayout(MINES_TILE_COUNT, count, js);
      HonestGridIsPlacement(mineCount, stream, forced);
    }
  }

  lemma ForcedLossGrid(count: nat, shuffled: seq<nat>)
    requires 1 <= count < MINES_TILE_COUNT == |shuffled| && Distinct(shuffled)
    requires forall tile: nat :: tile in shuffled <==> tile < MINES_TILE_COUNT
    ensures var forcedMines := HOT_SPOTS[..Least(count, |HOT_SPOTS|)];
            var remaining := Filter(shuffled, Outside(AsSet(forcedMines)));
            var grid := AsSet(forcedMines + remaining[..Least(count - |forcedMines|, |remaining|)]);
            Within(grid, MINES_TILE_COUNT) && |grid| == count
  {
    hide Filter;
    hide Count;
    hide Distinct;
    var forcedMines := HOT_SPOTS[..Least(count, |HOT_SPOTS|)];
    HotSpotsAreTiles(|forcedMines|);
    var hot := AsSet(forcedMines);
    var remaining := Filter(shuffled, Outside(hot));
    FilterIsDistinct(shuffled, Outside(hot));
    CountOutside(shuffled, hot);
    DistinctSize(forcedMines);
    var rest := remaining[..count - |forcedMines|];
    DistinctParts(forcedMines, remaining, |rest|);
    var grid := AsSet(forcedMines + rest);
    DistinctSize(forcedMines + rest);
    forall tile <- grid
      ensures tile < MINES_TILE_COUNT
    {
      if tile !in forcedMines {
        assert tile in rest && tile in remaining;
      }
    }
  }

  lemma DistinctParts(xs: seq<nat>, ys: seq<nat>, k: nat)
    requires Distinct(xs) && Distinct(ys) && k <= |ys| && forall y <- ys :: y !in AsSet(xs)
    ensures Distinct(xs + ys[..k])
  {
    forall i, j | 0 <= i < |xs| && 0 <= j < |ys[..k]|
      ensures xs[i] != ys[..k][j]
    {
      assert ys[j] in ys && xs[i] in AsSet(xs);
    }
    DistinctConcat(xs, ys[..k]);
  }
}
