/**
  The network message dispatcher `handle_net_msg` of src/nostr_plugin.rs.

  Once per game-loop tick it first publishes a pending "new game" request,
  then drains the inbound queue of decoded messages, updating the move
  ledger (`Board`: the moves and whose turn it is) and the session flags
  (`SendNetMsg`: whether the game has started and the local role
  `player_type`, 1 host, 2 guest, 3 spectator). Control requests it sends
  (`new_game`, `join_game`, `start_game`) are appended to an outbox.

  `Handle`, `Drain` and `Tick` are the specification on values; the method
  `HandleNetMsg` is the loop over the three resources, proved equal to `Tick`.
 */
module NostrPlugin {
  import opened Moves

  /** A peer's public identity, as text. */
  type PeerId = string

  /** The two seats of a game, host first. */
  datatype Players = Players(player1: PeerId, player2: PeerId)

  /**
    An inbound message as the dispatcher matches on it; `Undecodable`
    stands for a payload that fails to deserialize.
   */
  datatype NetMsg =
    | NewGame
    | JoinGame(peer: PeerId)
    | StartGame(players: Players)
    | Input(column: nat)
    | Replay
    | Undecodable

  /** Role messages: the ones guarded by `start`. */
  predicate IsRoleMsg(m: NetMsg)
  {
    m.NewGame? || m.JoinGame? || m.StartGame?
  }

  /** A control request handed to the outbound channel. */
  datatype Request = NewGameReq | JoinGameReq | StartGameReq(players: Players)

  /** How handling one message leaves the drain loop: go on, `break` or `return`. */
  datatype Exit = Continue | Break | Return

  /** The turn of a fresh `Board::new()`. */
  const InitialTurn: int := 1

  /** The board and session fields the dispatcher reads and writes. */
  datatype NetState = NetState(moves: seq<Move>, turn: int, start: bool, playerType: int, outbox: seq<Request>)

  datatype Handled = Handled(state: NetState, exit: Exit)

  /** The state after a drain and the messages still queued. */
  datatype Drained = Drained(state: NetState, rest: seq<NetMsg>)

  /**
    The effect of one message on the state, and how the loop goes on. Only
    an `Input` can break and only a role message can return; no message but
    `Input` and `Replay` touches the ledger; `start` is never cleared; and
    at most one request is added to the outbox.
   */
  function Handle(s: NetState, local: PeerId, m: NetMsg): (h: Handled)
    ensures h.exit == Break ==> m.Input?
    ensures h.exit == Return ==> IsRoleMsg(m)
    ensures !m.Input? && !m.Replay? ==> h.state.moves == s.moves && h.state.turn == s.turn
    ensures s.start ==> h.state.start
    ensures |s.outbox| <= |h.state.outbox| <= |s.outbox| + 1 && h.state.outbox[..|s.outbox|] == s.outbox
  {
    match m
    case NewGame =>
      if s.start then Handled(s, Return)
      else Handled(s.(outbox := s.outbox + [JoinGameReq]), Continue)
    case JoinGame(other) =>
      if s.start then Handled(s, Return)
      else Handled(s.(start := true, outbox := s.outbox + [StartGameReq(Players(local, other))], playerType := 1), Continue)
    case StartGame(ps) =>
      if s.start then Handled(s, Return)
      else if local != ps.player1 && local != ps.player2 then Handled(s.(playerType := 3, start := true), Return)
      else Handled(s.(outbox := s.outbox + [StartGameReq(ps)], start := true, playerType := 2), Continue)
    case Input(c) =>
      var rowPos := CountIn(s.moves, c);
      if rowPos <= 5 then Handled(s.(moves := s.moves + [Move(s.turn, c, rowPos)], turn := Flip(s.turn)), Break)
      else Handled(s, Continue)
    case Replay =>
      Handled(s.(moves := [], turn := InitialTurn), Continue)
    case Undecodable =>
      Handled(s, Continue)
  }

  /**
    Drain the queue `q` message by message until it is empty or a message
    leaves the loop; what is left is a suffix of `q`, shorter whenever `q`
    was not empty.
   */
  function Drain(s: NetState, local: PeerId, q: seq<NetMsg>): (r: Drained)
    ensures |r.rest| <= |q| && r.rest == q[|q| - |r.rest|..]
    ensures q != [] ==> |r.rest| < |q|
    decreases |q|
  {
    if q == [] then Drained(s, [])
    else
      var h := Handle(s, local, q[0]);
      if h.exit == Continue then Drain(h.state, local, q[1..]) else Drained(h.state, q[1..])
  }

  /** One whole tick: the pending `new_game` request, then the drain when a receiver exists. */
  function Tick(s: NetState, createdGame: bool, connected: bool, local: PeerId, inbox: seq<NetMsg>): (r: Drained)
    ensures |r.rest| <= |inbox| && r.rest == inbox[|inbox| - |r.rest|..]
    ensures connected && inbox != [] ==> |r.rest| < |inbox|
    ensures !connected ==> r.rest == inbox && r.state.moves == s.moves && r.state.turn == s.turn && r.state.start == s.start
  {
    var s1 := if createdGame then s.(outbox := s.outbox + [NewGameReq]) else s;
    if connected then Drain(s1, local, inbox) else Drained(s1, inbox)
  }

  /**
    The ledger invariant: the column-fill discipline (each move's row is the
    number of earlier moves in its column, below 6), players alternating
    from the initial turn, and the turn telling whose move is next.
   */
  ghost predicate LedgerOk(moves: seq<Move>, turn: int)
  {
    && Stacked(moves, false)
    && Alternates(moves, InitialTurn)
    && turn == (if |moves| % 2 == 0 then InitialTurn else Flip(InitialTurn))
  }

  // ---------------------------------------------------------------------
  // One message

  /**
    An `Input(c)` into a column holding k <= 5 moves appends exactly the
    move `(turn, c, k)`, flips the turn, touches no session field and ends
    the tick; into a full column it changes nothing and draining goes on.
   */
  lemma InputPlacement(s: NetState, local: PeerId, c: nat)
    ensures var h := Handle(s, local, Input(c));
      if CountIn(s.moves, c) <= 5 then
        && h.state.moves == s.moves + [Move(s.turn, c, CountIn(s.moves, c))]
        && h.state.turn == Flip(s.turn) && h.state.turn != s.turn
        && h.exit == Break
        && (h.state.start, h.state.playerType, h.state.outbox) == (s.start, s.playerType, s.outbox)
      else h == Handled(s, Continue)
  {
  }

  /**
    Before the game starts, `JoinGame(p)` makes the local peer the host
    (type 1) and asks to start the game with (local, p); `StartGame(ps)`
    makes it a spectator (type 3, nothing sent, tick over) when it holds
    neither seat, and a guest (type 2, `start_game(ps)` sent) otherwise.
    `NewGame` only answers with `join_game`.
   */
  lemma RoleAssignment(s: NetState, local: PeerId, m: NetMsg)
    requires !s.start && IsRoleMsg(m)
    ensures var h := Handle(s, local, m);
      && h.state.moves == s.moves && h.state.turn == s.turn
      && (m.NewGame? ==> h.state == s.(outbox := s.outbox + [JoinGameReq]) && h.exit == Continue)
      && (m.JoinGame? ==>
            h.state.start && h.state.playerType == 1 && h.exit == Continue
            && h.state.outbox == s.outbox + [StartGameReq(Players(local, m.peer))])
      && (m.StartGame? && local != m.players.player1 && local != m.players.player2 ==>
            h.state.start && h.state.playerType == 3 && h.state.outbox == s.outbox && h.exit == Return)
      && (m.StartGame? && (local == m.players.player1 || local == m.players.player2) ==>
            h.state.start && h.state.playerType == 2 && h.exit == Continue
            && h.state.outbox == s.outbox + [StartGameReq(m.players)])
  {
  }

  /** `Replay` puts back a fresh board and leaves `start`, `player_type` and the outbox alone. */
  lemma ReplayResets(s: NetState, local: PeerId)
    ensures var h := Handle(s, local, Replay);
      && h.state.moves == [] && h.state.turn == InitialTurn
      && (h.state.start, h.state.playerType, h.state.outbox) == (s.start, s.playerType, s.outbox)
      && h.exit == Continue
      && LedgerOk(h.state.moves, h.state.turn)
  {
  }

  /** Handling one message keeps the ledger invariant. */
  lemma HandleKeepsLedger(s: NetState, local: PeerId, m: NetMsg)
    requires LedgerOk(s.moves, s.turn)
    ensures LedgerOk(Handle(s, local, m).state.moves, Handle(s, local, m).state.turn)
  {
    var h := Handle(s, local, m);
    if m.Input? && CountIn(s.moves, m.column) <= 5 {
      var mv := Move(s.turn, m.column, CountIn(s.moves, m.column));
      assert h.state.moves == s.moves + [mv] && h.state.turn == Flip(s.turn);
      StackedAppend(s.moves, mv, false);
      AlternatesAppend(s.moves, mv, InitialTurn);
    } else if m.Replay? {
      assert h.state.moves == [] && h.state.turn == InitialTurn;
    } else {
      assert h.state.moves == s.moves && h.state.turn == s.turn;
    }
  }

  // ---------------------------------------------------------------------
  // A whole drain

  /** Once `start` is set, a role message changes nothing, sends nothing and ends the tick. */
  lemma RoleAfterStartStops(s: NetState, local: PeerId, q: seq<NetMsg>)
    requires s.start && q != [] && IsRoleMsg(q[0])
    ensures Drain(s, local, q) == Drained(s, q[1..])
  {
  }

  /** An `Input` into a full column is skipped and draining goes on with the next message. */
  lemma FullColumnSkipped(s: NetState, local: PeerId, q: seq<NetMsg>)
    requires q != [] && q[0].Input? && CountIn(s.moves, q[0].column) > 5
    ensures Drain(s, local, q) == Drain(s, local, q[1..])
  {
    assert Handle(s, local, q[0]) == Handled(s, Continue);
  }

  /** A message that fails to decode is skipped and draining goes on with the next message. */
  lemma UndecodableSkipped(s: NetState, local: PeerId, q: seq<NetMsg>)
    requires q != [] && q[0].Undecodable?
    ensures Drain(s, local, q) == Drain(s, local, q[1..])
  {
    assert Handle(s, local, q[0]) == Handled(s, Continue);
  }

  /** Draining keeps the ledger invariant. */
  lemma {:induction false} DrainKeepsLedger(s: NetState, local: PeerId, q: seq<NetMsg>)
    requires LedgerOk(s.moves, s.turn)
    ensures LedgerOk(Drain(s, local, q).state.moves, Drain(s, local, q).state.turn)
    decreases |q|
  {
    if q != [] {
      HandleKeepsLedger(s, local, q[0]);
      var h := Handle(s, local, q[0]);
      if h.exit == Continue {
        DrainKeepsLedger(h.state, local, q[1..]);
      }
    }
  }

  /**
    Once `start` is set a drain never clears it, never changes the role
    and sends nothing: role assignment happens at most once.
   */
  lemma {:induction false} DrainAfterStart(s: NetState, local: PeerId, q: seq<NetMsg>)
    requires s.start
    ensures var r := Drain(s, local, q);
      r.state.start && r.state.playerType == s.playerType && r.state.outbox == s.outbox
    decreases |q|
  {
    if q != [] {
      var h := Handle(s, local, q[0]);
      if h.exit == Continue {
        DrainAfterStart(h.state, local, q[1..]);
      }
    }
  }

  /** One message keeps the ledger, empties it (`Replay`) or appends one move and ends the tick (`Input`). */
  lemma HandleMoves(s: NetState, local: PeerId, m: NetMsg)
    ensures var h := Handle(s, local, m);
      || h.state.moves == s.moves
      || (m.Replay? && h.state.moves == [])
      || (m.Input? && h.exit == Break && h.state.moves == s.moves + [Move(s.turn, m.column, CountIn(s.moves, m.column))])
  {
  }

  /** At most one move is appended per tick, whatever the queue holds. */
  lemma {:induction false} DrainAppendsAtMostOne(s: NetState, local: PeerId, q: seq<NetMsg>)
    ensures |Drain(s, local, q).state.moves| <= |s.moves| + 1
    decreases |q|
  {
    if q != [] {
      var h := Handle(s, local, q[0]);
      HandleMoves(s, local, q[0]);
      if h.exit == Continue {
        DrainAppendsAtMostOne(h.state, local, q[1..]);
      }
    }
  }

  /** None of the first `n` messages of `q` is a `Replay`. */
  predicate NoReplay(q: seq<NetMsg>, n: int)
  {
    forall i :: 0 <= i < n && i < |q| ==> !q[i].Replay?
  }

  /** Unless a `Replay` was drained, the old ledger stays a prefix of the new one. */
  lemma {:induction false} DrainKeepsPrefix(s: NetState, local: PeerId, q: seq<NetMsg>)
    ensures var r := Drain(s, local, q);
      NoReplay(q, |q| - |r.rest|) ==>
        |s.moves| <= |r.state.moves| && r.state.moves[..|s.moves|] == s.moves
    decreases |q|
  {
    if q != [] {
      var h := Handle(s, local, q[0]);
      var r := Drain(s, local, q);
      var used := |q| - |r.rest|;
      DrainStep(s, local, q);
      if NoReplay(q, used) {
        assert !q[0].Replay?;
        if h.exit == Continue {
          ContinueKeepsMoves(s, local, q[0]);
          NoReplayTail(q, used);
          DrainKeepsPrefix(h.state, local, q[1..]);
        } else {
          StopKeepsPrefix(s, local, q[0]);
        }
      }
    }
  }

  /**
    Unless a `Replay` was drained, a move appended by the tick came from
    the last message drained, an `Input` of that move's column.
   */
  lemma {:induction false} DrainAppendsFromInput(s: NetState, local: PeerId, q: seq<NetMsg>)
    ensures var r := Drain(s, local, q);
      var used := |q| - |r.rest|;
      NoReplay(q, used) && |r.state.moves| > |s.moves| ==>
        used >= 1 && q[used - 1].Input? && r.state.moves[|s.moves|].column == q[used - 1].column
    decreases |q|
  {
    if q != [] {
      var h := Handle(s, local, q[0]);
      var r := Drain(s, local, q);
      var used := |q| - |r.rest|;
      DrainStep(s, local, q);
      if NoReplay(q, used) && |r.state.moves| > |s.moves| {
        assert !q[0].Replay?;
        if h.exit == Continue {
          ContinueKeepsMoves(s, local, q[0]);
          NoReplayTail(q, used);
          DrainAppendsFromInput(h.state, local, q[1..]);
        } else {
          StopKeepsPrefix(s, local, q[0]);
        }
      }
    }
  }

  /**
    A drain that consumed a `Replay` ends with at most one move: the reset
    board takes at most one `Input` before the tick ends.
   */
  lemma {:induction false} DrainAfterReplay(s: NetState, local: PeerId, q: seq<NetMsg>)
    ensures var r := Drain(s, local, q);
      !NoReplay(q, |q| - |r.rest|) ==> |r.state.moves| <= 1
    decreases |q|
  {
    if q != [] {
      var h := Handle(s, local, q[0]);
      var r := Drain(s, local, q);
      var used := |q| - |r.rest|;
      DrainStep(s, local, q);
      if h.exit != Continue {
        // only an `Input` or a role message ends the tick, and it is the one message consumed
        assert r == Drained(h.state, q[1..]) && used == 1 && !q[0].Replay?;
        assert NoReplay(q, used);
      } else if q[0].Replay? {
        assert h.state.moves == [] && r == Drain(h.state, local, q[1..]);
        DrainAppendsAtMostOne(h.state, local, q[1..]);
      } else {
        assert r == Drain(h.state, local, q[1..]);
        if !NoReplay(q, used) {
          ReplayInTail(q, used);
          assert |q[1..]| - |r.rest| == used - 1;
          DrainAfterReplay(h.state, local, q[1..]);
        }
      }
    }
  }

  /** A `Replay` among the consumed messages, other than the head, is among those consumed from the tail. */
  lemma ReplayInTail(q: seq<NetMsg>, used: int)
    requires 1 <= used <= |q| && !NoReplay(q, used) && !q[0].Replay?
    ensures !NoReplay(q[1..], used - 1)
  {
    var i :| 0 <= i < used && i < |q| && q[i].Replay?;
    assert q[1..][i - 1] == q[i];
  }

  /** Dropping the head of the queue shifts the consumed messages by one. */
  lemma NoReplayTail(q: seq<NetMsg>, used: int)
    requires 1 <= used <= |q| && NoReplay(q, used)
    ensures NoReplay(q[1..], used - 1)
    ensures used >= 2 ==> q[1..][used - 2] == q[used - 1]
  {
  }

  /** A message other than `Replay` after which draining goes on leaves the ledger alone. */
  lemma ContinueKeepsMoves(s: NetState, local: PeerId, m: NetMsg)
    requires !m.Replay? && Handle(s, local, m).exit == Continue
    ensures Handle(s, local, m).state.moves == s.moves
  {
  }

  /** A message that ends the tick keeps the old ledger as a prefix, adding at most an `Input`'s move. */
  lemma StopKeepsPrefix(s: NetState, local: PeerId, m: NetMsg)
    requires Handle(s, local, m).exit != Continue
    ensures var moves := Handle(s, local, m).state.moves;
      && |s.moves| <= |moves| && moves[..|s.moves|] == s.moves
      && (|moves| > |s.moves| ==> m.Input? && moves[|s.moves|].column == m.column)
  {
    var moves := Handle(s, local, m).state.moves;
    if moves != s.moves {
      assert moves == s.moves + [Move(s.turn, m.column, CountIn(s.moves, m.column))];
      assert moves[..|s.moves|] == s.moves;
    }
  }

  /** The tick never drops or reorders outgoing requests; it only appends. */
  lemma {:induction false} DrainOutboxGrows(s: NetState, local: PeerId, q: seq<NetMsg>)
    ensures var r := Drain(s, local, q);
      |s.outbox| <= |r.state.outbox| && r.state.outbox[..|s.outbox|] == s.outbox
    decreases |q|
  {
    if q != [] {
      var h := Handle(s, local, q[0]);
      assert h.state.outbox[..|s.outbox|] == s.outbox;
      if h.exit == Continue {
        DrainOutboxGrows(h.state, local, q[1..]);
      }
    }
  }

  /**
    Under the ledger invariant every column holds at most six moves and
    its rows are exactly 0, 1, ..., k-1 in the order played; with all
    columns in 0..6 the ledger holds at most 42 moves.
   */
  lemma LedgerShape(moves: seq<Move>, turn: int, c: int)
    requires LedgerOk(moves, turn)
    ensures CountIn(moves, c) <= Rows
    ensures forall j :: 0 <= j < |ColumnRows(moves, c)| ==> ColumnRows(moves, c)[j] == j
    ensures (forall i :: 0 <= i < |moves| ==> 0 <= moves[i].column < Columns) ==> |moves| <= Rows * Columns
  {
    StackedColumnRows(moves, c, false);
    if forall i :: 0 <= i < |moves| ==> 0 <= moves[i].column < Columns {
      LedgerAtMost42(moves, false);
    }
  }

  /**
    The column of an `Input` is not range-checked: column 7, off the
    grid, is accepted like any other.
   */
  lemma InputColumnUnchecked(local: PeerId)
    ensures var s := NetState([], InitialTurn, true, 1, []);
      Handle(s, local, Input(7)).state.moves == [Move(InitialTurn, 7, 0)]
  {
  }

  /** A pending `new_game` request goes out before anything the drain sends. */
  lemma TickSendsNewGameFirst(s: NetState, connected: bool, local: PeerId, inbox: seq<NetMsg>)
    ensures var r := Tick(s, true, connected, local, inbox);
      |r.state.outbox| > |s.outbox| && r.state.outbox[..|s.outbox| + 1] == s.outbox + [NewGameReq]
  {
    var s1 := s.(outbox := s.outbox + [NewGameReq]);
    if connected {
      DrainOutboxGrows(s1, local, inbox);
      assert Drain(s1, local, inbox).state.outbox[..|s.outbox| + 1] == s1.outbox;
    }
  }

  // ---------------------------------------------------------------------
  // The resources and the system

  /** `NetworkStuff`: the receiving end of the inbound channel, when there is one. */
  class NetworkStuff {
    var connected: bool
    var inbox: seq<NetMsg>

    constructor (connected: bool, inbox: seq<NetMsg>)
      ensures this.connected == connected && this.inbox == inbox
    {
      this.connected := connected;
      this.inbox := inbox;
    }
  }

  /** `SendNetMsg`: the session flags and the outbound requests. */
  class SendNetMsg {
    const localPlayer: PeerId
    var createdGame: bool
    var start: bool
    var playerType: int
    var outbox: seq<Request>

    constructor (localPlayer: PeerId, createdGame: bool)
      ensures this.localPlayer == localPlayer && this.createdGame == createdGame
      ensures !start && playerType == 0 && outbox == []
    {
      this.localPlayer := localPlayer;
      this.createdGame := createdGame;
      start := false;
      playerType := 0;
      outbox := [];
    }
  }

  /** `Board`: the move ledger and whose turn it is. */
  class Board {
    var moves: seq<Move>
    var playerTurn: int

    ghost predicate Valid()
      reads this
    {
      LedgerOk(moves, playerTurn)
    }

    /** `Board::new()`: an empty ledger, player 1 to move. */
    constructor ()
      ensures moves == [] && playerTurn == InitialTurn && Valid()
    {
      moves := [];
      playerTurn := InitialTurn;
    }
  }

  function View(board: Board, session: SendNetMsg): NetState
    reads board, session
  {
    NetState(board.moves, board.playerTurn, session.start, session.playerType, session.outbox)
  }

  /**
    `handle_net_msg`: one tick of the dispatcher, over the three resources.
    The new board, session and queue are those of `Tick`, so everything
    proved of `Drain` holds of them; in particular the ledger invariant.
   */
  method HandleNetMsg(net: NetworkStuff, session: SendNetMsg, board: Board)
    modifies net, session, board
    ensures var r := Tick(old(View(board, session)), old(session.createdGame), old(net.connected),
                          session.localPlayer, old(net.inbox));
      View(board, session) == r.state && net.inbox == r.rest
    ensures !session.createdGame && net.connected == old(net.connected)
    ensures old(board.Valid()) ==> board.Valid()
  {
    ghost var s0 := View(board, session);
    if session.createdGame {
      session.outbox := session.outbox + [NewGameReq];
      session.createdGame := false;
    }
    ghost var start := View(board, session);
    assert start == if old(session.createdGame) then s0.(outbox := s0.outbox + [NewGameReq]) else s0;
    if net.connected {
      ghost var inbox := net.inbox;
      DrainInbox(net, session, board);
      if old(board.Valid()) {
        DrainKeepsLedger(start, session.localPlayer, inbox);
      }
    }
  }

  /**
    The `while let` loop of `handle_net_msg`: messages are taken off the
    queue and dispatched until the queue is empty or one of them ends the
    tick. The new board, session and queue are those of `Drain`.
   */
  method DrainInbox(net: NetworkStuff, session: SendNetMsg, board: Board)
    modifies net, session, board
    ensures var r := Drain(old(View(board, session)), session.localPlayer, old(net.inbox));
      View(board, session) == r.state && net.inbox == r.rest
    ensures session.createdGame == old(session.createdGame) && net.connected == old(net.connected)
  {
    ghost var target := Drain(View(board, session), session.localPlayer, net.inbox);
    while net.inbox != []
      invariant Drain(View(board, session), session.localPlayer, net.inbox) == target
      invariant session.createdGame == old(session.createdGame) && net.connected == old(net.connected)
      decreases |net.inbox|
    {
      ghost var queued := net.inbox;
      DrainStep(View(board, session), session.localPlayer, queued);
      var message := net.inbox[0];
      net.inbox := net.inbox[1..];
      assert queued[1..] == net.inbox;
      var exit := Dispatch(message, session, board);
      if exit == Return {
        return;
      } else if exit == Break {
        break;
      }
    }
  }

  /**
    The body of the drain loop: apply one message to the session and the
    board; the result says whether the loop goes on, `break`s or `return`s.
   */
  method Dispatch(message: NetMsg, session: SendNetMsg, board: Board) returns (exit: Exit)
    modifies session, board
    ensures Handled(View(board, session), exit) == Handle(old(View(board, session)), session.localPlayer, message)
    ensures session.createdGame == old(session.createdGame)
  {
    exit := Continue;
    match message {
      case NewGame =>
        if session.start {
          return Return;
        }
        session.outbox := session.outbox + [JoinGameReq];
      case JoinGame(otherPlayer) =>
        if session.start {
          return Return;
        }
        var players := Players(session.localPlayer, otherPlayer);
        session.start := true;
        session.outbox := session.outbox + [StartGameReq(players)];
        session.playerType := 1;
      case StartGame(players) =>
        if session.start {
          return Return;
        }
        if session.localPlayer != players.player1 && session.localPlayer != players.player2 {
          session.playerType := 3;
          session.start := true;
          return Return;
        }
        session.outbox := session.outbox + [StartGameReq(players)];
        session.start := true;
        session.playerType := 2;
      case Input(newInput) =>
        var rowPos := CountIn(board.moves, newInput);
        if rowPos <= 5 {
          var playerMove := Move(board.playerTurn, newInput, rowPos);
          board.moves := board.moves + [playerMove];
          board.playerTurn := if board.playerTurn == 1 then 2 else 1;
          return Break;
        }
      case Replay =>
        board.moves := [];
        board.playerTurn := InitialTurn;
      case Undecodable =>
    }
  }

  /** One unfolding of `Drain`, so that the loop of `HandleNetMsg` can follow it message by message. */
  lemma DrainStep(s: NetState, local: PeerId, q: seq<NetMsg>)
    requires q != []
    ensures var h := Handle(s, local, q[0]);
      Drain(s, local, q) == if h.exit == Continue then Drain(h.state, local, q[1..]) else Drained(h.state, q[1..])
  {
  }
}
