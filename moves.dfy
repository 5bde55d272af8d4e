/**
  Moves shared by the three boards of the client: the network move ledger
  (src/nostr_plugin.rs), the egui board (src/app.rs) and the Bevy board
  (src/gui_plugin.rs). A move records who played, in which column, and
  the row the coin landed in; every board keeps its moves in the order they
  were accepted.
 */
module Moves {

  /** A value that may be absent. */
  datatype Option<T> = None | Some(value: T)

  /** One recorded move: `(player, column, row)`. */
  datatype Move = Move(player: int, column: int, row: int)

  /**
    Number of rows of the grid; a column holds at most this many coins
    (`num_rows` in src/app.rs).
   */
  const Rows: nat := 6

  /** Number of columns of the grid (`num_columns` in src/app.rs). */
  const Columns: nat := 7

  /** `if turn == 1 { 2 } else { 1 }`, the turn flip used by every board. */
  function Flip(turn: int): (r: int)
    ensures r == 1 || r == 2
    ensures r == 2 <==> turn == 1
  {
    if turn == 1 then 2 else 1
  }

  /** How many of the moves `ms` lie in column `c`. */
  function CountIn(ms: seq<Move>, c: int): (k: nat)
    ensures k <= |ms|
  {
    if ms == [] then 0
    else CountIn(ms[..|ms| - 1], c) + (if ms[|ms| - 1].column == c then 1 else 0)
  }

  /** The rows of the moves in column `c`, in the order they were played. */
  function ColumnRows(ms: seq<Move>, c: int): (rows: seq<int>)
    ensures |rows| == CountIn(ms, c)
  {
    if ms == [] then []
    else ColumnRows(ms[..|ms| - 1], c) + (if ms[|ms| - 1].column == c then [ms[|ms| - 1].row] else [])
  }

  /**
    The row the k-th coin of a column lands in: the network ledger fills
    a column upwards from row 0, both local boards fill it downwards from
    row 5.
   */
  function RowAt(k: int, down: bool): int
  {
    if down then Rows - 1 - k else k
  }

  /**
    Column-fill discipline: every move was the k-th coin of its column for
    some k < 6 (k = the number of earlier moves in that column), and it sits
    in row RowAt(k).
   */
  ghost predicate Stacked(ms: seq<Move>, down: bool)
  {
    forall i {:trigger ms[i]} :: 0 <= i < |ms| ==>
      CountIn(ms[..i], ms[i].column) < Rows && ms[i].row == RowAt(CountIn(ms[..i], ms[i].column), down)
  }

  /** Players alternate, the first move belonging to `first`. */
  ghost predicate Alternates(ms: seq<Move>, first: int)
  {
    forall i :: 0 <= i < |ms| ==> ms[i].player == (if i % 2 == 0 then first else Flip(first))
  }

  /** Appending the next coin of a column keeps the column-fill discipline. */
  lemma StackedAppend(ms: seq<Move>, m: Move, down: bool)
    requires Stacked(ms, down)
    requires CountIn(ms, m.column) < Rows && m.row == RowAt(CountIn(ms, m.column), down)
    ensures Stacked(ms + [m], down)
  {
    var ms' := ms + [m];
    forall i | 0 <= i < |ms'|
      ensures CountIn(ms'[..i], ms'[i].column) < Rows
      ensures ms'[i].row == RowAt(CountIn(ms'[..i], ms'[i].column), down)
    {
      if i < |ms| {
        assert ms'[..i] == ms[..i];
      } else {
        assert ms'[..i] == ms;
      }
    }
  }

  /** Counting after appending one move. */
  lemma CountInAppend(ms: seq<Move>, m: Move, c: int)
    ensures CountIn(ms + [m], c) == CountIn(ms, c) + (if m.column == c then 1 else 0)
  {
    assert (ms + [m])[..|ms|] == ms;
  }

  /** Every prefix of a stacked ledger is stacked. */
  lemma StackedPrefix(ms: seq<Move>, n: nat, down: bool)
    requires Stacked(ms, down) && n <= |ms|
    ensures Stacked(ms[..n], down)
  {
    var p := ms[..n];
    forall i | 0 <= i < |p|
      ensures CountIn(p[..i], p[i].column) < Rows && p[i].row == RowAt(CountIn(p[..i], p[i].column), down)
    {
      assert p[..i] == ms[..i];
    }
  }

  /** Appending the next player keeps alternation. */
  lemma AlternatesAppend(ms: seq<Move>, m: Move, first: int)
    requires Alternates(ms, first)
    requires m.player == (if |ms| % 2 == 0 then first else Flip(first))
    ensures Alternates(ms + [m], first)
  {
  }

  /**
    Under the column-fill discipline the rows of column `c` are exactly
    RowAt(0), RowAt(1), ..., RowAt(k-1), in that order, with k <= 6:
    for the network ledger 0..k-1, for the local boards 5 down to 6-k.
   */
  lemma {:induction false} StackedColumnRows(ms: seq<Move>, c: int, down: bool)
    requires Stacked(ms, down)
    ensures CountIn(ms, c) <= Rows
    ensures forall j :: 0 <= j < |ColumnRows(ms, c)| ==> ColumnRows(ms, c)[j] == RowAt(j, down)
  {
    if ms != [] {
      var p := ms[..|ms| - 1];
      var m := ms[|ms| - 1];
      StackedPrefix(ms, |ms| - 1, down);
      StackedColumnRows(p, c, down);
      assert ms[..|ms| - 1] == p;
      if m.column == c {
        assert CountIn(p, c) < Rows && m.row == RowAt(CountIn(p, c), down);
      }
    }
  }

  /** Every entry of ColumnRows comes from a move of the ledger in that column. */
  lemma {:induction false} ColumnRowsWitness(ms: seq<Move>, c: int, j: int)
    requires 0 <= j < |ColumnRows(ms, c)|
    ensures exists i :: 0 <= i < |ms| && ms[i].column == c && ms[i].row == ColumnRows(ms, c)[j]
  {
    var p := ms[..|ms| - 1];
    var m := ms[|ms| - 1];
    if j < |ColumnRows(p, c)| {
      ColumnRowsWitness(p, c, j);
      var i :| 0 <= i < |p| && p[i].column == c && p[i].row == ColumnRows(p, c)[j];
      assert ms[i] == p[i];
    } else {
      assert ms[|ms| - 1].column == c && ms[|ms| - 1].row == ColumnRows(ms, c)[j];
    }
  }

  /** A move in column c makes the count of a longer prefix strictly larger. */
  lemma {:induction false} CountGrows(ms: seq<Move>, i: nat, j: nat)
    requires i < j <= |ms|
    ensures CountIn(ms[..j], ms[i].column) >= CountIn(ms[..i], ms[i].column) + 1
  {
    var c := ms[i].column;
    assert ms[..j][..j - 1] == ms[..j - 1];
    if j == i + 1 {
      assert ms[..j][j - 1] == ms[i];
    } else {
      CountGrows(ms, i, j - 1);
    }
  }

  /**
    No cell is recorded twice: under the column-fill discipline two moves
    in the same column always sit in different rows.
   */
  lemma NoCellTwice(ms: seq<Move>, down: bool)
    requires Stacked(ms, down)
    ensures forall i, j :: 0 <= i < j < |ms| && ms[i].column == ms[j].column ==> ms[i].row != ms[j].row
  {
    forall i, j | 0 <= i < j < |ms| && ms[i].column == ms[j].column
      ensures ms[i].row != ms[j].row
    {
      CountGrows(ms, i, j);
    }
  }

  /** The sum of the column counts over columns 0..n-1. */
  function CountUpTo(ms: seq<Move>, n: nat): nat
  {
    if n == 0 then 0 else CountUpTo(ms, n - 1) + CountIn(ms, n - 1)
  }

  lemma {:induction false} CountUpToAppend(ms: seq<Move>, m: Move, n: nat)
    ensures CountUpTo(ms + [m], n) == CountUpTo(ms, n) + (if 0 <= m.column < n then 1 else 0)
  {
    assert (ms + [m])[..|ms|] == ms;
    if n > 0 {
      CountUpToAppend(ms, m, n - 1);
    }
  }

  /**
    A stacked ledger whose moves all lie in columns 0..6 has at most
    42 moves: each of the seven columns holds at most six.
   */
  lemma {:induction false} LedgerAtMost42(ms: seq<Move>, down: bool)
    requires Stacked(ms, down)
    requires forall i :: 0 <= i < |ms| ==> 0 <= ms[i].column < Columns
    ensures |ms| <= Rows * Columns
  {
    CountUpToIsLength(ms);
    BoundedCount(ms, Columns, down);
  }

  lemma {:induction false} BoundedCount(ms: seq<Move>, n: nat, down: bool)
    requires Stacked(ms, down)
    ensures CountUpTo(ms, n) <= Rows * n
  {
    if n > 0 {
      BoundedCount(ms, n - 1, down);
      StackedColumnRows(ms, n - 1, down);
    }
  }

  /** With all moves in columns 0..6, the column counts add up to the length. */
  lemma {:induction false} CountUpToIsLength(ms: seq<Move>)
    requires forall i :: 0 <= i < |ms| ==> 0 <= ms[i].column < Columns
    ensures CountUpTo(ms, Columns) == |ms|
  {
    if ms == [] {
      CountUpToEmpty(Columns);
    } else {
      var p := ms[..|ms| - 1];
      CountUpToIsLength(p);
      CountUpToAppend(p, ms[|ms| - 1], Columns);
      assert p + [ms[|ms| - 1]] == ms;
    }
  }

  lemma {:induction false} CountUpToEmpty(n: nat)
    ensures CountUpTo([], n) == 0
  {
    if n > 0 {
      CountUpToEmpty(n - 1);
    }
  }
}
