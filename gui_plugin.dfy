/**
  The placement step of `place` in src/gui_plugin.rs, the Bevy board.

  The `Board` resource holds the moves, whose turn it is and a per-column
  "next free row" map `column_state` (a missing entry reads as row 5). On a
  press over the hovered column the turn flips first, whether or not a coin
  is then recorded; the coin is recorded in row `coin_location` unless that
  row is 0 and some move anywhere on the board already sits in row 0; the
  column's counter then goes down by one, stopping at 0.

  Hit-testing of the cursor and touches is not modelled: the hovered column
  and whether a button was just pressed are inputs.
 */
module GuiPlugin {
  import opened Moves

  /** The fields of `Board`, as a value; the counters are `usize`. */
  datatype BoardValue = BoardValue(moves: seq<Move>, playerTurn: int, columnState: map<int, nat>)

  /** A grid position of the `setup` grid, `CoinPos { c, r }`. */
  datatype CoinPos = CoinPos(c: nat, r: nat)

  /** `*board.column_state.get(&coin.c).unwrap_or(&(6 - 1))` */
  function CoinLocation(columnState: map<int, nat>, c: int): (loc: nat)
    ensures (forall c' :: c' in columnState ==> columnState[c'] < Rows) ==> loc < Rows
  {
    if c in columnState then columnState[c] else Rows - 1
  }

  /**
    `board.moves.iter().any(|&(_, _, loc)| loc == 0)`, scanning from the
    front: true exactly when some move sits in row 0.
   */
  function AnyRowZero(moves: seq<Move>): (any: bool)
    ensures any <==> exists i :: 0 <= i < |moves| && moves[i].row == 0
  {
    if moves == [] then false
    else if moves[0].row == 0 then true
    else
      var rest := AnyRowZero(moves[1..]);
      assert forall i :: 1 <= i < |moves| ==> moves[i] == moves[1..][i - 1];
      rest
  }

  /**
    One press over column `c`: the turn always flips, at most one move is
    appended, and no other column's counter changes.
   */
  function Press(b: BoardValue, c: int): (r: BoardValue)
    ensures r.playerTurn == Flip(b.playerTurn)
    ensures |b.moves| <= |r.moves| <= |b.moves| + 1 && r.moves[..|b.moves|] == b.moves
    ensures forall c' :: c' != c ==>
      (c' in r.columnState <==> c' in b.columnState) &&
      (c' in b.columnState ==> r.columnState[c'] == b.columnState[c'])
  {
    var coinLocation := CoinLocation(b.columnState, c);
    var nextPlayerTurn := Flip(b.playerTurn);
    if coinLocation != 0 || !AnyRowZero(b.moves) then
      b.(playerTurn := nextPlayerTurn,
         moves := b.moves + [Move(nextPlayerTurn, c, coinLocation)],
         columnState := b.columnState[c := if coinLocation > 0 then coinLocation - 1 else coinLocation])
    else
      b.(playerTurn := nextPlayerTurn)
  }

  function Max0(x: int): nat
  {
    if x < 0 then 0 else x
  }

  /**
    The invariant the placement keeps: each column fills downwards from
    row 5 with at most six coins (Stacked), at most one move on the whole
    board sits in row 0, a column entry is 5 minus the column's coins but
    never below 0, and a column without an entry holds no coin.
   */
  ghost predicate Valid(b: BoardValue)
  {
    && Stacked(b.moves, true)
    && (forall i, j :: 0 <= i < j < |b.moves| && b.moves[i].row == 0 ==> b.moves[j].row != 0)
    && (forall c :: c in b.columnState ==> b.columnState[c] == Max0(Rows - 1 - CountIn(b.moves, c)))
    && (forall c :: CountIn(b.moves, c) > 0 ==> c in b.columnState)
  }

  /** `Board::new()`: no moves, player 1 to move, no column entry yet; it is valid. */
  function Fresh(): (b: BoardValue)
    ensures b.moves == [] && b.playerTurn == 1 && b.columnState == map[]
    ensures Valid(b)
  {
    BoardValue([], 1, map[])
  }

  /** On a valid board the counter of a column is 5 minus its coins, stopping at 0. */
  lemma CoinLocationCounts(b: BoardValue, c: int)
    requires Valid(b)
    ensures CoinLocation(b.columnState, c) == Max0(Rows - 1 - CountIn(b.moves, c))
  {
    if c !in b.columnState {
      assert CountIn(b.moves, c) == 0;
    }
  }

  /**
    Every press flips the turn; the move recorded, if any, is
    `(new turn, c, coin_location)`; it is recorded exactly when
    `coin_location != 0` or no move anywhere sits in row 0; and only
    column `c`'s entry can change, to `coin_location - 1` stopping at 0.
   */
  lemma PressEffect(b: BoardValue, c: int)
    ensures var b' := Press(b, c);
      var coinLocation := CoinLocation(b.columnState, c);
      && b'.playerTurn == Flip(b.playerTurn) && b'.playerTurn != b.playerTurn
      && (b'.moves != b.moves <==> coinLocation != 0 || !AnyRowZero(b.moves))
      && (b'.moves != b.moves ==>
            b'.moves == b.moves + [Move(b'.playerTurn, c, coinLocation)]
            && b'.columnState == b.columnState[c := Max0(coinLocation as int - 1)])
      && (b'.moves == b.moves ==> b'.columnState == b.columnState)
  {
  }

  /** A press keeps the board invariant. */
  lemma {:induction false} PressKeepsValid(b: BoardValue, c: int)
    requires Valid(b)
    ensures Valid(Press(b, c))
  {
    var coinLocation := CoinLocation(b.columnState, c);
    CoinLocationCounts(b, c);
    if coinLocation != 0 || !AnyRowZero(b.moves) {
      RoomWhenRecorded(b, c);
      var b' := Press(b, c);
      var m := Move(Flip(b.playerTurn), c, coinLocation);
      assert b'.moves == b.moves + [m];
      assert (if coinLocation > 0 then coinLocation - 1 else coinLocation) == Max0(coinLocation as int - 1);
      DropKeepsValid(b, b', m);
    }
  }

  /**
    When the guard lets a coin through, its column still has room: a full
    column's counter is 0 and its top coin sits in row 0.
   */
  lemma {:induction false} RoomWhenRecorded(b: BoardValue, c: int)
    requires Valid(b)
    requires CoinLocation(b.columnState, c) != 0 || !AnyRowZero(b.moves)
    ensures CountIn(b.moves, c) < Rows
  {
    CoinLocationCounts(b, c);
    StackedColumnRows(b.moves, c, true);
    if CountIn(b.moves, c) == Rows {
      ColumnRowsWitness(b.moves, c, Rows - 1);
      assert false;
    }
  }

  /** Recording the k-th coin of column m.column, in row 5 - k, keeps the invariant. */
  lemma DropKeepsValid(b: BoardValue, b': BoardValue, m: Move)
    requires Valid(b)
    requires CountIn(b.moves, m.column) < Rows && m.row == Rows - 1 - CountIn(b.moves, m.column)
    requires m.row == 0 ==> !AnyRowZero(b.moves)
    requires b'.moves == b.moves + [m]
    requires b'.columnState == b.columnState[m.column := Max0(m.row - 1)]
    ensures Valid(b')
  {
    StackedAppend(b.moves, m, true);
    CountersAfterDrop(b.moves, b.columnState, m);
    RowZeroAfterDrop(b.moves, m);
  }

  /** Lowering the dropped column's counter keeps every counter at 5 minus its column's coins. */
  lemma CountersAfterDrop(ms: seq<Move>, cs: map<int, nat>, m: Move)
    requires forall c :: c in cs ==> cs[c] == Max0(Rows - 1 - CountIn(ms, c))
    requires forall c :: CountIn(ms, c) > 0 ==> c in cs
    requires m.row == Rows - 1 - CountIn(ms, m.column)
    ensures forall c :: c in cs[m.column := Max0(m.row - 1)] ==>
      cs[m.column := Max0(m.row - 1)][c] == Max0(Rows - 1 - CountIn(ms + [m], c))
    ensures forall c :: CountIn(ms + [m], c) > 0 ==> c in cs[m.column := Max0(m.row - 1)]
  {
    var cs' := cs[m.column := Max0(m.row - 1)];
    forall c | c in cs'
      ensures cs'[c] == Max0(Rows - 1 - CountIn(ms + [m], c))
    {
      CountInAppend(ms, m, c);
    }
    forall c | CountIn(ms + [m], c) > 0
      ensures c in cs'
    {
      CountInAppend(ms, m, c);
    }
  }

  /** A coin that goes into row 0 only when no other coin is there keeps row 0 to at most one coin. */
  lemma RowZeroAfterDrop(ms: seq<Move>, m: Move)
    requires forall i, j :: 0 <= i < j < |ms| && ms[i].row == 0 ==> ms[j].row != 0
    requires m.row == 0 ==> !AnyRowZero(ms)
    ensures forall i, j :: 0 <= i < j < |ms + [m]| && (ms + [m])[i].row == 0 ==> (ms + [m])[j].row != 0
  {
    var ms' := ms + [m];
    forall i, j | 0 <= i < j < |ms'| && ms'[i].row == 0
      ensures ms'[j].row != 0
    {
      if j == |ms| {
        assert ms'[i] == ms[i];
      }
    }
  }

  /**
    Under the invariant no cell holds two coins, and with all coins in
    columns 0..6 the board holds at most 42.
   */
  lemma ValidBoardIsConsistent(b: BoardValue)
    requires Valid(b)
    ensures forall i, j :: 0 <= i < j < |b.moves| && b.moves[i].column == b.moves[j].column ==>
      b.moves[i].row != b.moves[j].row
    ensures (forall i :: 0 <= i < |b.moves| ==> 0 <= b.moves[i].column < Columns) ==> |b.moves| <= Rows * Columns
  {
    NoCellTwice(b.moves, true);
    if forall i :: 0 <= i < |b.moves| ==> 0 <= b.moves[i].column < Columns {
      LedgerAtMost42(b.moves, true);
    }
  }

  /**
    The row-0 guard looks at the whole board: once column `full` is full
    (its last coin in row 0), a column `other` holding five coins can no
    longer take its sixth, though its row 0 is free. The press still flips
    the turn.
   */
  lemma RowZeroElsewhereBlocks(b: BoardValue, full: int, other: int)
    requires Valid(b) && CountIn(b.moves, full) == Rows && CountIn(b.moves, other) == Rows - 1
    ensures forall i :: 0 <= i < |b.moves| && b.moves[i].column == other ==> b.moves[i].row != 0
    ensures Press(b, other).moves == b.moves
    ensures Press(b, other).playerTurn == Flip(b.playerTurn)
  {
    StackedColumnRows(b.moves, full, true);
    ColumnRowsWitness(b.moves, full, Rows - 1);
    CoinLocationCounts(b, other);
    forall i | 0 <= i < |b.moves| && b.moves[i].column == other
      ensures b.moves[i].row != 0
    {
      CountGrowsBelow(b.moves, i);
    }
  }

  /** A move's row is fixed by how many coins its column had before; those are fewer than the column's total. */
  lemma CountGrowsBelow(ms: seq<Move>, i: nat)
    requires i < |ms|
    ensures CountIn(ms[..i], ms[i].column) < CountIn(ms, ms[i].column)
  {
    CountGrows(ms, i, |ms|);
    assert ms[..|ms|] == ms;
  }

  /** The `Board` resource, updated in place. */
  class Board {
    var moves: seq<Move>
    var playerTurn: int
    var columnState: map<int, nat>

    function View(): BoardValue
      reads this
    {
      BoardValue(moves, playerTurn, columnState)
    }

    /** `Board::new()` */
    constructor ()
      ensures View() == Fresh() && Valid(View())
    {
      moves := [];
      playerTurn := 1;
      columnState := map[];
    }

    /** The body of `place` for a press over column `c`. */
    method PressColumn(c: nat)
      modifies this
      ensures View() == Press(old(View()), c)
    {
      var coinLocation := if c in columnState then columnState[c] else Rows - 1;
      playerTurn := if playerTurn == 1 then 2 else 1;
      var nextPlayerTurn := playerTurn;
      if coinLocation != 0 || !(exists j :: 0 <= j < |moves| && moves[j].row == 0) {
        moves := moves + [Move(nextPlayerTurn, c, coinLocation)];
        var newCoinLocation := if coinLocation > 0 then coinLocation - 1 else coinLocation;
        columnState := columnState[c := newCoinLocation];
      }
    }

    /**
      The loop of `place` over the grid positions: the first position in
      the hovered column takes the press, if there was one, and the loop
      stops there, so a frame applies at most one `Press`.
     */
    method Place(positions: seq<CoinPos>, hoveredColumn: Option<nat>, pressed: bool)
      modifies this
      ensures View() == if pressed && hoveredColumn.Some? &&
                           (exists i :: 0 <= i < |positions| && positions[i].c == hoveredColumn.value)
                        then Press(old(View()), hoveredColumn.value)
                        else old(View())
      ensures old(Valid(View())) ==> Valid(View())
    {
      ghost var b0 := View();
      for n := 0 to |positions|
        invariant View() == b0
        invariant !(pressed && hoveredColumn.Some? &&
                    exists i :: 0 <= i < n && positions[i].c == hoveredColumn.value)
      {
        var coin := positions[n];
        if Some(coin.c) == hoveredColumn && pressed {
          PressColumn(coin.c);
          if Valid(b0) {
            PressKeepsValid(b0, coin.c);
          }
          break;
        }
      }
    }
  }
}
