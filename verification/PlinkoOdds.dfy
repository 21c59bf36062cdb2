/**
 * The odds of an honest Plinko ball: every path is equally likely, so a bucket takes as many of them as there are ways to choose its
 * steps to the right, and what the tables return on average follows.
 */
module PlinkoOdds {
  import opened Boards
  import opened Layouts
  import opened MinesGrid
  import opened Rng
  import opened Sums
  import opened TableGames

  /** The stream with one draw replaced. */
  function Put(s: Stream, at: nat, v: Draw): Stream {
    (cursor: nat) => if cursor == at then v else s(cursor)
  }

  function HonestPath(risk: Risk, rows: Rows, s: Stream, cap: int): seq<int> {
    ResolvePlinko(risk, rows, s, Honest, cap).path
  }

  /** Step i of an honest ball is decided by the draw at cursor i alone: left in the lower half, right in the upper. */
  lemma StepIsOwnDraw(risk: Risk, rows: Rows, s: Stream, cap: int, i: nat)
    requires i < RowCount(rows)
    ensures |HonestPath(risk, rows, s, cap)| == RowCount(rows)
    ensures HonestPath(risk, rows, s, cap)[i] == if 2 * s(i) < DRAWS then 0 else 1
  {
    var n := RowCount(rows);
    HonestBucket(n, s);
    HalfOfDraws(s(i));
    assert Map(Positions(n), HalfStep(s))[i] == HalfStep(s)(i);
    hide PlinkoBuckets;
    hide SeededFloat;
  }

  lemma HalfOfDraws(v: Draw)
    ensures SeededFloat(v) < 0.5 <==> 2 * v < DRAWS
  {
  }

  /** The draws at cursor i, the others being fixed, that make step i go this way. */
  function DrawsOfStep(risk: Risk, rows: Rows, s: Stream, cap: int, i: nat, way: int): set<nat>
    requires i < RowCount(rows)
  {
    set v: nat | v < DRAWS && i < |HonestPath(risk, rows, Put(s, i, v), cap)| && HonestPath(risk, rows, Put(s, i, v), cap)[i] == way
  }

  /** With all other draws fixed, each step goes either way on exactly half of its own draws. */
  lemma StepIsFair(risk: Risk, rows: Rows, s: Stream, cap: int, i: nat, way: int)
    requires i < RowCount(rows) && (way == 0 || way == 1)
    ensures 2 * |DrawsOfStep(risk, rows, s, cap, i, way)| == DRAWS
  {
    hide *;
    forall v: nat
      ensures v in DrawsOfStep(risk, rows, s, cap, i, way) <==> v in WayDraws(false, way)
    {
      StepGoes(risk, rows, s, cap, i, way, v);
    }
    assert DrawsOfStep(risk, rows, s, cap, i, way) == WayDraws(false, way);
    HalfGoEachWay(false, way);
    EvenDraws();
  }

  lemma EvenDraws()
    ensures 2 * (DRAWS / 2) == DRAWS
  {
  }

  lemma StepGoes(risk: Risk, rows: Rows, s: Stream, cap: int, i: nat, way: int, v: nat)
    requires i < RowCount(rows)
    ensures v in DrawsOfStep(risk, rows, s, cap, i, way) <==> v in WayDraws(false, way)
  {
    if v < DRAWS {
      StepIsOwnDraw(risk, rows, Put(s, i, v), cap, i);
    }
    hide HonestPath;
  }

  /** And no other step depends on them: the steps of a path are independent. */
  lemma OtherStepsStay(risk: Risk, rows: Rows, s: Stream, cap: int, i: nat, v: Draw, j: nat)
    requires j < RowCount(rows) && j != i
    ensures |HonestPath(risk, rows, Put(s, i, v), cap)| == |HonestPath(risk, rows, s, cap)| == RowCount(rows)
    ensures HonestPath(risk, rows, Put(s, i, v), cap)[j] == HonestPath(risk, rows, s, cap)[j]
  {
    StepIsOwnDraw(risk, rows, Put(s, i, v), cap, j);
    StepIsOwnDraw(risk, rows, s, cap, j);
    hide HonestPath;
  }

  predicate IsPath(path: seq<int>) {
    forall i :: 0 <= i < |path| ==> path[i] == 0 || path[i] == 1
  }

  /** A stream whose ball takes this path. */
  function StreamOf(path: seq<int>): Stream {
    (cursor: nat) => if cursor < |path| && path[cursor] == 0 then 0 else DRAWS - 1
  }

  /** Every path of the right length is taken by some ball. */
  lemma EveryPathIsTaken(risk: Risk, rows: Rows, cap: int, path: seq<int>)
    requires IsPath(path) && |path| == RowCount(rows)
    ensures HonestPath(risk, rows, StreamOf(path), cap) == path
  {
    forall i: nat | i < RowCount(rows)
      ensures |HonestPath(risk, rows, StreamOf(path), cap)| == RowCount(rows)
      ensures HonestPath(risk, rows, StreamOf(path), cap)[i] == path[i]
    {
      StepIsOwnDraw(risk, rows, StreamOf(path), cap, i);
    }
    assert RowCount(rows) > 0;
    StepIsOwnDraw(risk, rows, StreamOf(path), cap, 0);
    hide HonestPath;
  }

  /** Of the draws at the cursors from i on, taken in all combinations, how many make the ball take this path. */
  function TuplesTo(risk: Risk, rows: Rows, s: Stream, cap: int, i: nat, path: seq<int>): int
    requires i <= RowCount(rows)
    decreases RowCount(rows) - i
  {
    if i == RowCount(rows) then if HonestPath(risk, rows, s, cap) == path then 1 else 0
    else SumBelow(DRAWS, (v: nat) => if v < DRAWS then TuplesTo(risk, rows, Put(s, i, v), cap, i + 1, path) else 0)
  }

  /** Which way a draw sends the ball. */
  function WayOf(v: Draw): int {
    if 2 * v < DRAWS then 0 else 1
  }

  predicate Follows(s: Stream, i: nat, path: seq<int>)
    requires i <= |path|
  {
    forall j :: 0 <= j < i ==> WayOf(s(j)) == path[j]
  }

  /** The draws that send it this way; none if it has gone astray before. */
  function WayDraws(astray: bool, way: int): set<nat> {
    set v: nat | v < DRAWS && !astray && WayOf(v) == way
  }

  lemma HalfGoEachWay(astray: bool, way: int)
    requires way == 0 || way == 1
    ensures |WayDraws(astray, way)| == if astray then 0 else DRAWS / 2
  {
    var half := DRAWS / 2;
    if astray {
      assert WayDraws(astray, way) == {};
    } else if way == 0 {
      assert WayDraws(astray, way) == Interval(0, half);
      IntervalSize(0, half);
    } else {
      assert WayDraws(astray, way) == Interval(half, DRAWS);
      IntervalSize(half, DRAWS);
    }
  }

  function HalfPower(n: nat): nat {
    if n == 0 then 1 else HalfPower(n - 1) * (DRAWS / 2)
  }

  lemma PutFollows(s: Stream, i: nat, v: Draw, path: seq<int>)
    requires i < |path|
    ensures Follows(Put(s, i, v), i + 1, path) <==> Follows(s, i, path) && WayOf(v) == path[i]
  {
    hide WayOf;
    var t := Put(s, i, v);
    assert t(i) == v && forall j: nat :: j < i ==> t(j) == s(j);
    if Follows(t, i + 1, path) {
      assert forall j :: 0 <= j < i ==> WayOf(s(j)) == WayOf(t(j)) == path[j];
    }
  }

  lemma TakesIfFollows(risk: Risk, rows: Rows, s: Stream, cap: int, path: seq<int>)
    requires |path| == RowCount(rows)
    ensures HonestPath(risk, rows, s, cap) == path <==> Follows(s, RowCount(rows), path)
  {
    forall i: nat | i < RowCount(rows)
      ensures |HonestPath(risk, rows, s, cap)| == RowCount(rows) && HonestPath(risk, rows, s, cap)[i] == WayOf(s(i))
    {
      StepIsOwnDraw(risk, rows, s, cap, i);
    }
    assert RowCount(rows) > 0;
    StepIsOwnDraw(risk, rows, s, cap, 0);
    hide HonestPath;
    hide WayOf;
  }

  lemma TuplesUnfold(risk: Risk, rows: Rows, s: Stream, cap: int, i: nat, path: seq<int>) returns (f: nat -> int)
    requires i < RowCount(rows)
    ensures TuplesTo(risk, rows, s, cap, i, path) == SumBelow(DRAWS, f)
    ensures forall v: nat :: v < DRAWS ==> f(v) == TuplesTo(risk, rows, Put(s, i, v), cap, i + 1, path)
  {
    hide SumBelow;
    hide HonestPath;
    f := (v: nat) => if v < DRAWS then TuplesTo(risk, rows, Put(s, i, v), cap, i + 1, path) else 0;
  }

  lemma LastTuple(risk: Risk, rows: Rows, s: Stream, cap: int, path: seq<int>)
    requires |path| == RowCount(rows)
    ensures TuplesTo(risk, rows, s, cap, RowCount(rows), path) == if Follows(s, RowCount(rows), path) then HalfPower(0) else 0
  {
    TakesIfFollows(risk, rows, s, cap, path);
    hide HonestPath;
    hide Follows;
    hide SumBelow;
  }

  lemma WayDrawsHave(astray: bool, way: int, v: nat)
    ensures v in WayDraws(astray, way) <==> v < DRAWS && !astray && WayOf(v) == way
  {
    hide WayOf;
  }

  lemma HalfPowerUnfold(n: nat)
    requires n > 0
    ensures HalfPower(n) == HalfPower(n - 1) * (DRAWS / 2)
  {
  }

  lemma TimesCount(m: nat, count: nat, astray: bool)
    requires count == if astray then 0 else DRAWS / 2
    ensures m * count == if astray then 0 else m * (DRAWS / 2)
  {
  }

  lemma {:induction false} TuplesAre(risk: Risk, rows: Rows, s: Stream, cap: int, i: nat, path: seq<int>)
    requires i <= RowCount(rows) == |path| && IsPath(path)
    ensures TuplesTo(risk, rows, s, cap, i, path) == if Follows(s, i, path) then HalfPower(RowCount(rows) - i) else 0
    decreases RowCount(rows) - i
  {
    hide *;
    if i == RowCount(rows) {
      LastTuple(risk, rows, s, cap, path);
    } else {
      var m, wins := HalfPower(RowCount(rows) - i - 1), WayDraws(!Follows(s, i, path), path[i]);
      var f := TuplesUnfold(risk, rows, s, cap, i, path);
      forall v: nat | v < DRAWS
        ensures f(v) == if v in wins then m else 0
      {
        TuplesAre(risk, rows, Put(s, i, v), cap, i + 1, path);
        PutFollows(s, i, v, path);
        WayDrawsHave(!Follows(s, i, path), path[i], v);
      }
      forall v <- wins
        ensures v < DRAWS
      {
        WayDrawsHave(!Follows(s, i, path), path[i], v);
      }
      SumOfWins(DRAWS, f, wins, m);
      HalfGoEachWay(!Follows(s, i, path), path[i]) by { StepIsWay(path, i); }
      TimesCount(m, |wins|, !Follows(s, i, path));
      HalfPowerUnfold(RowCount(rows) - i);
    }
  }

  lemma StepIsWay(path: seq<int>, i: nat)
    requires IsPath(path) && i < |path|
    ensures path[i] == 0 || path[i] == 1
  {
  }

  lemma FollowsNothing(s: Stream, path: seq<int>)
    ensures Follows(s, 0, path)
  {
  }

  /** Of all combinations of its draws the same number, 2^51 for each step, makes a ball take any given path. */
  lemma PathsAreEquallyLikely(risk: Risk, rows: Rows, s: Stream, cap: int, path: seq<int>)
    requires IsPath(path) && |path| == RowCount(rows)
    ensures TuplesTo(risk, rows, s, cap, 0, path) == HalfPower(RowCount(rows))
  {
    hide *;
    TuplesAre(risk, rows, s, cap, 0, path);
    FollowsNothing(s, path);
  }

  function Then(step: int): seq<int> -> seq<int> {
    path => path + [step]
  }

  /** Every path of n steps. */
  function AllPaths(n: nat): seq<seq<int>> {
    if n == 0 then [[]] else Map(AllPaths(n - 1), Then(0)) + Map(AllPaths(n - 1), Then(1))
  }

  function PowerOfTwo(n: nat): nat {
    if n == 0 then 1 else 2 * PowerOfTwo(n - 1)
  }

  lemma MapHas(paths: seq<seq<int>>, step: int, path: seq<int>)
    ensures path in Map(paths, Then(step)) <==> path != [] && path[|path| - 1] == step && path[..|path| - 1] in paths
  {
    var after := Map(paths, Then(step));
    if path in after {
      var i :| 0 <= i < |after| && after[i] == path;
      assert path == paths[i] + [step];
      assert path[..|path| - 1] == paths[i];
    }
    if path != [] && path[|path| - 1] == step && path[..|path| - 1] in paths {
      var i :| 0 <= i < |paths| && paths[i] == path[..|path| - 1];
      assert after[i] == path;
    }
  }

  /** The list holds exactly the paths, each of them once, so there are 2^n. */
  lemma {:induction false} AllPathsIsComplete(n: nat, path: seq<int>)
    ensures path in AllPaths(n) <==> |path| == n && IsPath(path)
  {
    if n > 0 {
      MapHas(AllPaths(n - 1), 0, path);
      MapHas(AllPaths(n - 1), 1, path);
      if path != [] {
        AllPathsIsComplete(n - 1, path[..|path| - 1]);
      }
    }
  }

  lemma {:induction false} AllPathsAreDistinct(n: nat)
    ensures Distinct(AllPaths(n)) && |AllPaths(n)| == PowerOfTwo(n)
  {
    if n > 0 {
      AllPathsAreDistinct(n - 1);
      var left, right := Map(AllPaths(n - 1), Then(0)), Map(AllPaths(n - 1), Then(1));
      MapDistinct(AllPaths(n - 1), 0);
      MapDistinct(AllPaths(n - 1), 1);
      forall i, j | 0 <= i < |left| && 0 <= j < |right|
        ensures left[i] != right[j]
      {
        assert left[i][|left[i]| - 1] == 0 && right[j][|right[j]| - 1] == 1;
      }
      DistinctConcat(left, right);
    }
  }

  lemma MapDistinct(paths: seq<seq<int>>, step: int)
    requires Distinct(paths)
    ensures Distinct(Map(paths, Then(step)))
  {
    var after := Map(paths, Then(step));
    forall i, j | 0 <= i < j < |after|
      ensures after[i] != after[j]
    {
      assert after[i][..|after[i]| - 1] == paths[i] && after[j][..|after[j]| - 1] == paths[j];
    }
  }

  /** The bucket that a path leads to. */
  function BucketOf(): seq<int> -> int {
    path => Sum(path, Identity())
  }

  function EndsIn(bucket: int): seq<int> -> bool {
    Hitting(BucketOf(), bucket)
  }

  lemma StepEnds(path: seq<int>, step: int, bucket: int)
    ensures EndsIn(bucket)(Then(step)(path)) == EndsIn(bucket - step)(path)
  {
    SumAppend(path, step, Identity());
    hide Sum;
  }

  /** Of the 2^n paths, C(n, k) end in bucket k. */
  lemma {:induction false} BucketShare(n: nat, bucket: int)
    ensures Count(AllPaths(n), EndsIn(bucket)) == Ways(n, bucket)
  {
    hide *;
    if n == 0 {
      OnePath(bucket);
    } else {
      AllPathsUnfold(n);
      StepBlock(AllPaths(n - 1), 0, bucket);
      StepBlock(AllPaths(n - 1), 1, bucket);
      CountConcat(Map(AllPaths(n - 1), Then(0)), Map(AllPaths(n - 1), Then(1)), EndsIn(bucket));
      BucketShare(n - 1, bucket);
      BucketShare(n - 1, bucket - 1);
      PascalRule(n, bucket);
    }
  }

  lemma StepBlock(shorter: seq<seq<int>>, step: int, bucket: int)
    ensures Count(Map(shorter, Then(step)), EndsIn(bucket)) == Count(shorter, EndsIn(bucket - step))
  {
    forall path <- shorter
      ensures EndsIn(bucket - step)(path) == EndsIn(bucket)(Then(step)(path))
    {
      StepEnds(path, step, bucket);
    }
    CountMap(shorter, Then(step), EndsIn(bucket), EndsIn(bucket - step));
    hide EndsIn;
    hide Then;
    hide Count;
  }

  function Ways(n: nat, bucket: int): nat {
    if bucket < 0 then 0 else Choose(n, bucket)
  }

  lemma AllPathsUnfold(n: nat)
    requires n > 0
    ensures AllPaths(n) == Map(AllPaths(n - 1), Then(0)) + Map(AllPaths(n - 1), Then(1))
  {
  }

  lemma OnePath(bucket: int)
    ensures Count(AllPaths(0), EndsIn(bucket)) == Ways(0, bucket)
  {
    var one: seq<seq<int>> := [[]];
    assert AllPaths(0) == one && one[1..] == [];
    assert Sum([], Identity()) == 0;
  }

  lemma PascalRule(n: nat, bucket: int)
    requires n > 0
    ensures Ways(n, bucket) == Ways(n - 1, bucket) + Ways(n - 1, bucket - 1)
  {
    if bucket == 0 {
      ChooseNone(n);
      ChooseNone(n - 1);
    }
  }

  /** Honest or decided, a ball is paid the entry of the bucket its path leads to, up to the cap. */
  lemma PaysItsBucket(risk: Risk, rows: Rows, s: Stream, forced: Forced, cap: int)
    ensures var r := ResolvePlinko(risk, rows, s, forced, cap);
            && 0 <= Sum(r.path, Identity()) <= RowCount(rows) && r.bucket == Sum(r.path, Identity())
            && r.multiplier == if cap < PlinkoBuckets(risk, rows)[r.bucket] then cap else PlinkoBuckets(risk, rows)[r.bucket]
  {
    PlinkoDecisionHonoured(risk, rows, s, forced, cap);
    hide PlinkoBuckets;
    hide Pool;
    hide PlinkoPathForBucket;
  }

  /** What the paths that lead to the first m buckets are paid together. */
  function WaysTotal(n: nat, m: nat, table: seq<int>): int
    requires m <= |table|
  {
    if m == 0 then 0 else WaysTotal(n, m - 1, table) + Ways(n, m - 1) * table[m - 1]
  }

  lemma OneMoreBucket(n: nat, m: nat, table: seq<int>, row: seq<nat>)
    requires IsRow(n, row) && m < |row| && m < |table|
    ensures WaysTotal(n, 0, table) == 0
    ensures WaysTotal(n, m + 1, table) == WaysTotal(n, m, table) + row[m] * table[m]
  {
    RowIsChoose(n, row, m);
    hide Choose;
    hide IsRow;
  }

  function Entry(table: seq<int>): int -> int {
    bucket => if 0 <= bucket < |table| then table[bucket] else 0
  }

  lemma {:induction false} GroupedIsWays(n: nat, m: nat, table: seq<int>)
    requires m <= |table|
    ensures Grouped(AllPaths(n), BucketOf(), m, Entry(table)) == WaysTotal(n, m, table)
  {
    if m > 0 {
      BucketShare(n, m - 1);
      GroupedIsWays(n, m - 1, table);
    }
    hide AllPaths;
    hide Ways;
    hide Count;
    hide BucketOf;
    hide Hitting;
  }

  lemma EightRow(n: nat, row: seq<nat>)
    requires n == 8 && row == [1, 8, 28, 56, 70, 56, 28, 8, 1]
    ensures IsRow(n, row)
  {
  }

  lemma EightWays(n: nat, t: seq<int>)
    requires n == 8 && |t| == n + 1
    ensures WaysTotal(n, |t|, t)
         == t[0] + 8 * t[1] + 28 * t[2] + 56 * t[3] + 70 * t[4]
            + 56 * t[5] + 28 * t[6] + 8 * t[7] + t[8]
  {
    hide *;
    var row: seq<nat> := [1, 8, 28, 56, 70, 56, 28, 8, 1];
    EightRow(n, row);
    OneMoreBucket(n, 0, t, row);
    OneMoreBucket(n, 1, t, row);
    OneMoreBucket(n, 2, t, row);
    OneMoreBucket(n, 3, t, row);
    OneMoreBucket(n, 4, t, row);
    OneMoreBucket(n, 5, t, row);
    OneMoreBucket(n, 6, t, row);
    OneMoreBucket(n, 7, t, row);
    OneMoreBucket(n, 8, t, row);
  }

  lemma TwelveRow(n: nat, row: seq<nat>)
    requires n == 12 && row == [1, 12, 66, 220, 495, 792, 924, 792, 495, 220, 66, 12, 1]
    ensures IsRow(n, row)
  {
  }

  lemma TwelveWays(n: nat, t: seq<int>)
    requires n == 12 && |t| == n + 1
    ensures WaysTotal(n, |t|, t)
         == t[0] + 12 * t[1] + 66 * t[2] + 220 * t[3] + 495 * t[4] + 792 * t[5] + 924 * t[6]
            + 792 * t[7] + 495 * t[8] + 220 * t[9] + 66 * t[10] + 12 * t[11] + t[12]
  {
    hide *;
    var row: seq<nat> := [1, 12, 66, 220, 495, 792, 924, 792, 495, 220, 66, 12, 1];
    TwelveRow(n, row);
    OneMoreBucket(n, 0, t, row);
    OneMoreBucket(n, 1, t, row);
    OneMoreBucket(n, 2, t, row);
    OneMoreBucket(n, 3, t, row);
    OneMoreBucket(n, 4, t, row);
    OneMoreBucket(n, 5, t, row);
    OneMoreBucket(n, 6, t, row);
    OneMoreBucket(n, 7, t, row);
    OneMoreBucket(n, 8, t, row);
    OneMoreBucket(n, 9, t, row);
    OneMoreBucket(n, 10, t, row);
    OneMoreBucket(n, 11, t, row);
    OneMoreBucket(n, 12, t, row);
  }

  lemma SixteenRow(n: nat, row: seq<nat>)
    requires n == 16 && row == [1, 16, 120, 560, 1820, 4368, 8008, 11440, 12870, 11440, 8008, 4368, 1820, 560, 120, 16, 1]
    ensures IsRow(n, row)
  {
  }

  lemma SixteenWays(n: nat, t: seq<int>)
    requires n == 16 && |t| == n + 1
    ensures WaysTotal(n, |t|, t)
         == t[0] + 16 * t[1] + 120 * t[2] + 560 * t[3] + 1820 * t[4] + 4368 * t[5] + 8008 * t[6] + 11440 * t[7] + 12870 * t[8]
            + 11440 * t[9] + 8008 * t[10] + 4368 * t[11] + 1820 * t[12] + 560 * t[13] + 120 * t[14] + 16 * t[15] + t[16]
  {
    hide *;
    var row: seq<nat> := [1, 16, 120, 560, 1820, 4368, 8008, 11440, 12870, 11440, 8008, 4368, 1820, 560, 120, 16, 1];
    SixteenRow(n, row);
    OneMoreBucket(n, 0, t, row);
    OneMoreBucket(n, 1, t, row);
    OneMoreBucket(n, 2, t, row);
    OneMoreBucket(n, 3, t, row);
    OneMoreBucket(n, 4, t, row);
    OneMoreBucket(n, 5, t, row);
    OneMoreBucket(n, 6, t, row);
    OneMoreBucket(n, 7, t, row);
    OneMoreBucket(n, 8, t, row);
    OneMoreBucket(n, 9, t, row);
    OneMoreBucket(n, 10, t, row);
    OneMoreBucket(n, 11, t, row);
    OneMoreBucket(n, 12, t, row);
    OneMoreBucket(n, 13, t, row);
    OneMoreBucket(n, 14, t, row);
    OneMoreBucket(n, 15, t, row);
    OneMoreBucket(n, 16, t, row);
  }

  /** What the 2^rows paths of a table come to, in hundredths. */
  function TableTotal(risk: Risk, rows: Rows): int {
    match (risk, rows)
    case (Low, Eight) => 25340
    case (Low, Twelve) => 405420
    case (Low, Sixteen) => 6487980
    case (Middle, Eight) => 25320
    case (Middle, Twelve) => 405460
    case (Middle, Sixteen) => 6487300
    case (High, Eight) => 25360
    case (High, Twelve) => 405980
    case (High, Sixteen) => 6486520
  }

  lemma EightTotals(risk: Risk, n: nat)
    requires n == 8
    ensures WaysTotal(n, |PlinkoBuckets(risk, Eight)|, PlinkoBuckets(risk, Eight)) == TableTotal(risk, Eight)
  {
    EightWays(n, PlinkoBuckets(risk, Eight));
    hide WaysTotal;
  }

  lemma TwelveTotals(risk: Risk, n: nat)
    requires n == 12
    ensures WaysTotal(n, |PlinkoBuckets(risk, Twelve)|, PlinkoBuckets(risk, Twelve)) == TableTotal(risk, Twelve)
  {
    TwelveWays(n, PlinkoBuckets(risk, Twelve));
    hide WaysTotal;
  }

  lemma SixteenTotals(risk: Risk, n: nat)
    requires n == 16
    ensures WaysTotal(n, |PlinkoBuckets(risk, Sixteen)|, PlinkoBuckets(risk, Sixteen)) == TableTotal(risk, Sixteen)
  {
    SixteenWays(n, PlinkoBuckets(risk, Sixteen));
    hide WaysTotal;
  }

  /** What an honest ball on a path is paid. */
  function BallPays(risk: Risk, rows: Rows, cap: int): seq<int> -> int {
    path => ResolvePlinko(risk, rows, StreamOf(path), Honest, cap).multiplier
  }

  predicate Uncapped(risk: Risk, rows: Rows, cap: int) {
    forall i :: 0 <= i < |PlinkoBuckets(risk, rows)| ==> PlinkoBuckets(risk, rows)[i] <= cap
  }

  /**
   * Over its 2^rows equally likely paths an honest ball is paid what its table comes to: between 98.90 and 99.12 percent of the
   * stake on average, for every risk and number of rows, wherever the cap lets every bucket pay.
   */
  lemma PlinkoReturn(risk: Risk, rows: Rows, cap: int)
    requires Uncapped(risk, rows, cap)
    ensures var n := RowCount(rows);
            && Sum(AllPaths(n), BallPays(risk, rows, cap)) == TableTotal(risk, rows)
            && 9890 * PowerOfTwo(n) <= 100 * TableTotal(risk, rows) <= 9912 * PowerOfTwo(n)
  {
    hide *;
    var n, table := RowCount(rows), PlinkoBuckets(risk, rows);
    forall path <- AllPaths(n)
      ensures 0 <= BucketOf()(path) < |table| && BallPays(risk, rows, cap)(path) == Entry(table)(BucketOf()(path))
    {
      AllPathsIsComplete(n, path);
      BallPaysEntry(risk, rows, cap, path);
    }
    SumGrouped(AllPaths(n), BallPays(risk, rows, cap), BucketOf(), |table|, Entry(table));
    GroupedIsWays(n, |table|, table);
    Totals(risk, rows);
  }

  lemma BallPaysEntry(risk: Risk, rows: Rows, cap: int, path: seq<int>)
    requires Uncapped(risk, rows, cap) && IsPath(path) && |path| == RowCount(rows)
    ensures var table := PlinkoBuckets(risk, rows);
            0 <= BucketOf()(path) < |table| && BallPays(risk, rows, cap)(path) == Entry(table)(BucketOf()(path))
  {
    EveryPathIsTaken(risk, rows, cap, path);
    PaysItsBucket(risk, rows, StreamOf(path), Honest, cap);
    hide ResolvePlinko;
    hide PlinkoBuckets;
    hide Sum;
  }

  lemma Totals(risk: Risk, rows: Rows)
    ensures |PlinkoBuckets(risk, rows)| == RowCount(rows) + 1
    ensures WaysTotal(RowCount(rows), |PlinkoBuckets(risk, rows)|, PlinkoBuckets(risk, rows)) == TableTotal(risk, rows)
    ensures 9890 * PowerOfTwo(RowCount(rows)) <= 100 * TableTotal(risk, rows) <= 9912 * PowerOfTwo(RowCount(rows))
  {
    Powers();
    InRange(risk, rows);
    hide WaysTotal;
    hide PowerOfTwo;
    hide PlinkoBuckets;
    hide TableTotal;
    match rows
    case Eight => EightTotals(risk, RowCount(rows));
    case Twelve => TwelveTotals(risk, RowCount(rows));
    case Sixteen => SixteenTotals(risk, RowCount(rows));
  }

  lemma InRange(risk: Risk, rows: Rows)
    ensures 9890 * PowerOfTwo(RowCount(rows)) <= 100 * TableTotal(risk, rows) <= 9912 * PowerOfTwo(RowCount(rows))
  {
    Powers();
    hide PowerOfTwo;
  }

  lemma Powers()
    ensures PowerOfTwo(8) == 256 && PowerOfTwo(12) == 4096 && PowerOfTwo(16) == 65536
  {
    assert PowerOfTwo(4) == 16;
    assert PowerOfTwo(8) == 256;
    assert PowerOfTwo(12) == 4096;
  }

  /** A table pays the same on either side and never more towards the middle. */
  lemma TablesAreSymmetric(risk: Risk, rows: Rows, i: nat)
    requires i <= RowCount(rows)
    ensures var table := PlinkoBuckets(risk, rows);
            table[i] == table[RowCount(rows) - i] && (2 * i < RowCount(rows) ==> table[i] >= table[i + 1])
  {
    match risk
    case Low => SymmetricLow(rows, i);
    case Middle => SymmetricMiddle(rows, i);
    case High => SymmetricHigh(rows, i);
  }

  lemma SymmetricLow(rows: Rows, i: nat)
    requires i <= RowCount(rows)
    ensures var table := PlinkoBuckets(Low, rows);
            table[i] == table[RowCount(rows) - i] && (2 * i < RowCount(rows) ==> table[i] >= table[i + 1])
  {
  }

  lemma SymmetricMiddle(rows: Rows, i: nat)
    requires i <= RowCount(rows)
    ensures var table := PlinkoBuckets(Middle, rows);
            table[i] == table[RowCount(rows) - i] && (2 * i < RowCount(rows) ==> table[i] >= table[i + 1])
  {
  }

  lemma SymmetricHigh(rows: Rows, i: nat)
    requires i <= RowCount(rows)
    ensures var table := PlinkoBuckets(High, rows);
            table[i] == table[RowCount(rows) - i] && (2 * i < RowCount(rows) ==> table[i] >= table[i + 1])
  {
  }
}
