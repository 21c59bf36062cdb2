/**
 * Which draws a round reads. The draws of a grid and of the control decision never share a cursor, so every combination
 * of them occurs: they can be treated as independent.
 */
module Cursors {
  import opened Arithmetic
  import opened Mines
  import opened MinesGrid
  import opened Rng
  import opened Shuffle
  import opened Towers

  /** The cursor at which the control decision is drawn. */
  const CONTROL_CURSOR: nat := 9999

  /** Floors have at most four tiles, so cursors of different floors, or of one floor and the control, never collide. */
  lemma FloorCursorsDiffer(row: nat, i: nat, otherRow: nat, j: nat)
    requires i < 4 && j < 4
    ensures FloorCursor(row) + i == FloorCursor(otherRow) + j ==> row == otherRow && i == j
    ensures FloorCursor(row) + i != CONTROL_CURSOR
  {
  }

  predicate AgreeOn(s: Stream, t: Stream, from: nat, n: nat) {
    forall cursor: nat :: from <= cursor < from + n ==> s(cursor) == t(cursor)
  }

  lemma SameIndices(s: Stream, t: Stream, offset: nat, n: nat)
    requires AgreeOn(s, t, offset, n)
    ensures Indices(s, offset, n) == Indices(t, offset, n)
  {
    forall i: nat | i < n
      ensures Drawn(s, offset, i) == Drawn(t, offset, i)
    {
      hide Scale;
    }
  }

  /** A Mines grid is laid by the draws below 25 alone. */
  lemma MinesGridReads(mineCount: int, s: Stream, t: Stream, forced: Forced)
    requires AgreeOn(s, t, 0, MINES_TILE_COUNT)
    ensures BuildMinesGrid(mineCount, s, forced) == BuildMinesGrid(mineCount, t, forced)
  {
    SameIndices(s, t, 0, MINES_TILE_COUNT);
    hide Indices;
    hide Shuffled;
    hide Filter;
  }

  /** A floor is laid by its own draws alone. */
  lemma FloorReads(difficulty: Difficulty, s: Stream, t: Stream, row: nat)
    requires AgreeOn(s, t, FloorCursor(row), TowersConfig(difficulty).tiles)
    ensures Floor(difficulty, s, row) == Floor(difficulty, t, row)
  {
    assert s(FloorCursor(row)) == t(FloorCursor(row));
    SameIndices(s, t, FloorCursor(row), TowersConfig(difficulty).tiles);
    hide Indices;
    hide Shuffled;
    hide EasyTrapsOnFloor;
  }

  /** One stream that gives each floor the draws another stream has for it, and the control decision its own draw. */
  function Joint(floors: nat -> Stream, control: Draw): Stream {
    (cursor: nat) => JointDraw(floors, control, cursor)
  }

  function JointDraw(floors: nat -> Stream, control: Draw, cursor: nat): Draw {
    if cursor == CONTROL_CURSOR then control
    else
      var floor := floors(RowAt(cursor));
      floor(cursor)
  }

  function RowAt(cursor: nat): nat {
    if cursor < 40 then 0 else cursor / 40 - 1
  }

  lemma JointAgrees(floors: nat -> Stream, control: Draw, row: nat)
    ensures AgreeOn(Joint(floors, control), floors(row), FloorCursor(row), 4)
  {
    hide *;
    var joint := Joint(floors, control);
    forall cursor: nat | FloorCursor(row) <= cursor < FloorCursor(row) + 4
      ensures joint(cursor) == floors(row)(cursor)
    {
      JointAt(floors, control, row, cursor);
    }
    AgreeUnfold(joint, floors(row), FloorCursor(row), 4);
  }

  lemma JointAt(floors: nat -> Stream, control: Draw, row: nat, cursor: nat)
    requires FloorCursor(row) <= cursor < FloorCursor(row) + 4
    ensures Joint(floors, control)(cursor) == floors(row)(cursor)
  {
    RowOf(row, cursor);
    hide FloorCursor;
  }

  lemma RowOf(row: nat, cursor: nat)
    requires FloorCursor(row) <= cursor < FloorCursor(row) + 4
    ensures cursor != CONTROL_CURSOR && RowAt(cursor) == row
  {
    FloorCursorsDiffer(row, cursor - FloorCursor(row), row, 0);
    DivIs(cursor, 40, row + 1);
  }

  lemma AgreeUnfold(s: Stream, t: Stream, from: nat, n: nat)
    requires forall cursor: nat :: from <= cursor < from + n ==> s(cursor) == t(cursor)
    ensures AgreeOn(s, t, from, n)
  {
  }

  lemma AgreeOnFewer(s: Stream, t: Stream, from: nat, n: nat, m: nat)
    requires AgreeOn(s, t, from, n) && m <= n
    ensures AgreeOn(s, t, from, m)
  {
  }

  /** Any floors that can occur one by one occur together, with any control draw and for any number of floors. */
  lemma FloorsAreIndependent(difficulty: Difficulty, rows: nat, floors: nat -> Stream, control: Draw)
    ensures var joint := Joint(floors, control);
            && joint(CONTROL_CURSOR) == control
            && forall row :: 0 <= row < rows ==> BuildTowersGrid(difficulty, joint, rows)[row] == Floor(difficulty, floors(row), row)
  {
    var joint := Joint(floors, control);
    hide AgreeOn;
    forall row: nat | row < rows
      ensures Floor(difficulty, joint, row) == Floor(difficulty, floors(row), row)
    {
      JointAgrees(floors, control, row);
      AgreeOnFewer(joint, floors(row), FloorCursor(row), 4, TowersConfig(difficulty).tiles);
      FloorReads(difficulty, joint, floors(row), row);
    }
    hide Floor;
    hide FloorCursor;
  }

  /** A Mines grid and the control decision are drawn independently too. */
  lemma MinesAndControlAreIndependent(mineCount: int, s: Stream, control: Draw, forced: Forced)
    ensures var joint := WithControl(s, control);
            joint(CONTROL_CURSOR) == control && BuildMinesGrid(mineCount, joint, forced) == BuildMinesGrid(mineCount, s, forced)
  {
    MinesGridReads(mineCount, WithControl(s, control), s, forced);
    hide BuildMinesGrid;
  }

  function WithControl(s: Stream, control: Draw): Stream {
    (cursor: nat) => if cursor == CONTROL_CURSOR then control else s(cursor)
  }
}
