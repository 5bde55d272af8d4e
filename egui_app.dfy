/**
  The egui front end of src/app.rs: the game state `Connect4App` (the
  recorded moves `board_state`, whose turn it is, and the per-column "next
  free row" map `column_state`), its fresh initial value, the click branch
  of `game_board`, and the path test `is_game_id_present`.

  A column fills downwards from row 5: `column_state[c]` starts at 5 and
  goes down by one per coin, so a full column has the value -1.
 */
module EguiApp {
  import opened Moves

  /** The fields of `Connect4App`, as a value. */
  datatype AppState = AppState(
    boardState: seq<Move>,
    playerTurn: int,
    columnState: map<int, int>,
    gameStart: bool,
    urlSet: bool)

  /** A button of the grid: its row and column. */
  datatype Cell = Cell(row: int, column: int)

  predicate InGrid(cell: Cell)
  {
    0 <= cell.row < Rows && 0 <= cell.column < Columns
  }

  /** `column_state.get(&column).unwrap_or(&(num_rows - 1))` */
  function CoinLocation(columnState: map<int, int>, column: int): (loc: int)
    ensures (forall c :: c in columnState ==> -1 <= columnState[c] < Rows) ==> -1 <= loc < Rows
  {
    if column in columnState then columnState[column] else Rows - 1
  }

  /**
    The cell shows a player's coin: it draws a button whose click result
    is discarded (`let _ =`), so a click there has no effect.
   */
  function Occupied(s: AppState, column: int, row: int): (occupied: bool)
    ensures occupied <==> (exists i :: 0 <= i < |s.boardState| &&
                                      s.boardState[i].column == column && s.boardState[i].row == row &&
                                      (s.boardState[i].player == 1 || s.boardState[i].player == 2))
  {
    Move(1, column, row) in s.boardState || Move(2, column, row) in s.boardState
  }

  /**
    A click on the button of (row, column): ignored on an occupied cell;
    otherwise the turn flips and the coin of the new turn lands in the
    column's next free row, which moves up by one.
   */
  function Click(s: AppState, column: int, row: int): (r: AppState)
    ensures Occupied(s, column, row) ==> r == s
    ensures r.gameStart == s.gameStart && r.urlSet == s.urlSet
    ensures r.boardState == s.boardState ==> r == s
    ensures r.boardState != s.boardState ==>
      && r.playerTurn == Flip(s.playerTurn)
      && r.boardState == s.boardState + [Move(r.playerTurn, column, CoinLocation(s.columnState, column))]
  {
    if Occupied(s, column, row) then s
    else
      var coinLocation := CoinLocation(s.columnState, column);
      if coinLocation < Rows then
        var turn := Flip(s.playerTurn);
        s.(playerTurn := turn,
           boardState := s.boardState + [Move(turn, column, coinLocation)],
           columnState := s.columnState[column := coinLocation - 1])
      else s
  }

  /**
    The invariant of the board: moves lie on the grid and fill each column
    downwards from row 5 (Stacked), the recorded players alternate starting
    with player 2 (the turn after the first flip), the turn tells who moved
    last, and for every column `column_state[c]` is 5 minus the number of
    coins in it, i.e. the row just above the column's top coin.
   */
  ghost predicate Valid(s: AppState)
  {
    && Stacked(s.boardState, true)
    && Alternates(s.boardState, 2)
    && s.playerTurn == (if |s.boardState| % 2 == 0 then 1 else 2)
    && (forall i :: 0 <= i < |s.boardState| ==> 0 <= s.boardState[i].column < Columns)
    && (forall c :: 0 <= c < Columns ==>
          c in s.columnState && s.columnState[c] == Rows - 1 - CountIn(s.boardState, c))
  }

  /**
    The loop of `Connect4App::new`: a map holding 5, the bottom-most free
    row, for each of the columns 0..6 and nothing else.
   */
  method NewColumnState() returns (columnState: map<int, int>)
    ensures forall c :: c in columnState <==> 0 <= c < Columns
    ensures forall c :: c in columnState ==> columnState[c] == Rows - 1
  {
    columnState := map[];
    for col := 0 to Columns
      invariant forall c :: c in columnState <==> 0 <= c < col
      invariant forall c :: c in columnState ==> columnState[c] == Rows - 1
    {
      columnState := columnState[col := Rows - 1];
    }
  }

  /**
    The state `Connect4App::new` builds when nothing is stored: no moves,
    player 1 to move, the game not started, every column 0..6 at row 5 and
    no other column; it satisfies the board invariant.
   */
  function Initial(): (s: AppState)
    ensures s.boardState == [] && s.playerTurn == 1 && !s.gameStart && !s.urlSet
    ensures forall c :: c in s.columnState <==> 0 <= c < Columns
    ensures forall c :: c in s.columnState ==> s.columnState[c] == 5
    ensures Valid(s)
  {
    AppState([], 1, map[0 := 5, 1 := 5, 2 := 5, 3 := 5, 4 := 5, 5 := 5, 6 := 5], false, false)
  }

  /**
    On a valid board an empty cell of the grid always has room in its
    column: the column holds at most five coins and its next free row is
    between 0 and 5. (A full column has no empty cell left to click.)
   */
  lemma {:induction false} EmptyCellHasRoom(s: AppState, column: int, row: int)
    requires Valid(s) && InGrid(Cell(row, column)) && !Occupied(s, column, row)
    ensures CountIn(s.boardState, column) < Rows
    ensures 0 <= s.columnState[column] < Rows
  {
    var bs := s.boardState;
    StackedColumnRows(bs, column, true);
    if CountIn(bs, column) == Rows {
      var j := Rows - 1 - row;
      ColumnRowsWitness(bs, column, j);
      assert false;
    }
  }

  /**
    A click on an empty cell of a valid board always places a coin: the
    turn flips, the move `(new turn, column, column_state[column])` is
    appended with that row between 0 and 5, and `column_state[column]`
    moves up by one; no other column's entry changes.
   */
  lemma ClickOnEmptyCell(s: AppState, column: int, row: int)
    requires Valid(s) && InGrid(Cell(row, column)) && !Occupied(s, column, row)
    ensures var s' := Click(s, column, row);
      var landed := s.columnState[column];
      && 0 <= landed < Rows
      && s'.playerTurn == Flip(s.playerTurn)
      && s'.boardState == s.boardState + [Move(s'.playerTurn, column, landed)]
      && s'.columnState == s.columnState[column := landed - 1]
  {
    EmptyCellHasRoom(s, column, row);
  }

  /** A click on an occupied cell changes nothing. */
  lemma ClickOnOccupiedCell(s: AppState, column: int, row: int)
    requires Occupied(s, column, row)
    ensures Click(s, column, row) == s
  {
  }

  /** A click never changes the `column_state` entry of another column. */
  lemma ClickTouchesOneColumn(s: AppState, column: int, row: int)
    ensures var s' := Click(s, column, row);
      forall c :: c != column ==>
        (c in s'.columnState <==> c in s.columnState) &&
        (c in s.columnState ==> s'.columnState[c] == s.columnState[c])
  {
  }

  /** From the initial state the first coin is player 2's and lands in row 5. */
  lemma FirstMoveIsPlayerTwo(column: int, row: int)
    requires InGrid(Cell(row, column))
    ensures Click(Initial(), column, row).boardState == [Move(2, column, 5)]
    ensures Click(Initial(), column, row).playerTurn == 2
  {
  }

  /** Dropping the next coin of a column, by the next player, keeps the board invariant. */
  lemma DropKeepsValid(s: AppState, s': AppState, m: Move)
    requires Valid(s) && 0 <= m.column < Columns
    requires CountIn(s.boardState, m.column) < Rows && m.row == s.columnState[m.column]
    requires m.player == Flip(s.playerTurn)
    requires s'.boardState == s.boardState + [m] && s'.playerTurn == m.player
    requires s'.columnState == s.columnState[m.column := m.row - 1]
    ensures Valid(s')
  {
    var bs := s.boardState;
    StackedAppend(bs, m, true);
    AlternatesAppend(bs, m, 2);
    ColumnsInGridAfterDrop(bs, m);
    ColumnStateAfterDrop(bs, s.columnState, m);
  }

  /** A coin dropped into a column of the grid keeps every move on the grid. */
  lemma ColumnsInGridAfterDrop(bs: seq<Move>, m: Move)
    requires forall i :: 0 <= i < |bs| ==> 0 <= bs[i].column < Columns
    requires 0 <= m.column < Columns
    ensures forall i :: 0 <= i < |bs + [m]| ==> 0 <= (bs + [m])[i].column < Columns
  {
  }

  /** Moving the dropped column's entry up by one keeps every entry at 5 minus the column's coins. */
  lemma ColumnStateAfterDrop(bs: seq<Move>, cs: map<int, int>, m: Move)
    requires forall c :: 0 <= c < Columns ==> c in cs && cs[c] == Rows - 1 - CountIn(bs, c)
    requires 0 <= m.column < Columns && m.row == cs[m.column]
    ensures forall c :: 0 <= c < Columns ==>
      c in cs[m.column := m.row - 1] && cs[m.column := m.row - 1][c] == Rows - 1 - CountIn(bs + [m], c)
  {
    forall c | 0 <= c < Columns
      ensures c in cs[m.column := m.row - 1] && cs[m.column := m.row - 1][c] == Rows - 1 - CountIn(bs + [m], c)
    {
      CountInAppend(bs, m, c);
    }
  }

  /** A click on a cell of the grid keeps the board invariant. */
  lemma ClickKeepsValid(s: AppState, column: int, row: int)
    requires Valid(s) && InGrid(Cell(row, column))
    ensures Valid(Click(s, column, row))
  {
    if !Occupied(s, column, row) {
      EmptyCellHasRoom(s, column, row);
      ClickOnEmptyCell(s, column, row);
      var s' := Click(s, column, row);
      DropKeepsValid(s, s', Move(s'.playerTurn, column, s.columnState[column]));
    }
  }

  /**
    Under the invariant no cell holds two coins and the board never has
    more than 42 of them.
   */
  lemma ValidBoardIsConsistent(s: AppState)
    requires Valid(s)
    ensures forall i, j :: 0 <= i < j < |s.boardState| && s.boardState[i].column == s.boardState[j].column ==>
      s.boardState[i].row != s.boardState[j].row
    ensures |s.boardState| <= Rows * Columns
  {
    NoCellTwice(s.boardState, true);
    LedgerAtMost42(s.boardState, true);
  }

  /**
    `is_game_id_present`: the page path, when the browser gives one, names
    a game exactly when it has something after the root: neither "" nor "/".
   */
  function IsGameIdPresent(pathname: Option<string>): (present: bool)
    ensures present ==> pathname.Some? && |pathname.value| >= 1
    ensures present && |pathname.value| == 1 ==> pathname.value[0] != '/'
    ensures pathname.Some? && |pathname.value| >= 2 ==> present
    ensures pathname.Some? && |pathname.value| == 1 && pathname.value[0] != '/' ==> present
  {
    match pathname
    case Some(location) => location != "" && location != "/"
    case None => false
  }

  /** `Connect4App` with its fields updated in place. */
  class Connect4App {
    var boardState: seq<Move>
    var playerTurn: int
    var columnState: map<int, int>
    var gameStart: bool
    var urlSet: bool

    function View(): AppState
      reads this
    {
      AppState(boardState, playerTurn, columnState, gameStart, urlSet)
    }

    /** `Connect4App::new` when no stored state is found. */
    constructor New()
      ensures View() == Initial() && Valid(View())
    {
      var initialColumns := NewColumnState();
      boardState := [];
      playerTurn := 1;
      columnState := initialColumns;
      gameStart := false;
      urlSet := false;
      new;
      assert forall c :: c in columnState <==> c in Initial().columnState;
      assert columnState == Initial().columnState;
    }

    /**
      The grid loop of `game_board`: every cell is visited row by row; an
      occupied cell shows its coin, and the one empty button that was
      clicked this frame, if any, places a coin. The frame's effect is
      exactly one `Click` on that cell.
     */
    method GameBoard(clicked: Option<Cell>)
      modifies this
      ensures View() == if clicked.Some? && InGrid(clicked.value)
                        then Click(old(View()), clicked.value.column, clicked.value.row)
                        else old(View())
      ensures old(Valid(View())) ==> Valid(View())
    {
      ghost var s0 := View();
      for row := 0 to Rows
        invariant View() == if clicked.Some? && InGrid(clicked.value) && clicked.value.row < row
                            then Click(s0, clicked.value.column, clicked.value.row) else s0
      {
        for column := 0 to Columns
          invariant View() == if clicked.Some? && InGrid(clicked.value) &&
                                 (clicked.value.row < row || (clicked.value.row == row && clicked.value.column < column))
                              then Click(s0, clicked.value.column, clicked.value.row) else s0
        {
          if Move(1, column, row) in boardState {
            // shows player 1's coin
          } else if Move(2, column, row) in boardState {
            // shows player 2's coin
          } else if clicked == Some(Cell(row, column)) {
            var coinLocation := if column in columnState then columnState[column] else Rows - 1;
            if coinLocation < Rows {
              playerTurn := if playerTurn == 1 then 2 else 1;
              boardState := boardState + [Move(playerTurn, column, coinLocation)];
              columnState := columnState[column := coinLocation - 1];
            }
          }
        }
      }
      if clicked.Some? && InGrid(clicked.value) && Valid(s0) {
        ClickKeepsValid(s0, clicked.value.column, clicked.value.row);
      }
    }
  }
}
