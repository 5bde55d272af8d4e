# connect4xyz: game-state bookkeeping in Dafny

This project models the discrete bookkeeping of the connect4xyz client, a
connect-four game played between two peers over nostr relays. Three places
of the client keep a board:

- **The network dispatcher** `handle_net_msg` (src/nostr_plugin.rs). Once per
  game-loop tick it sends a pending `new_game` request. Then it drains the
  inbound queue of decoded messages. It updates the move ledger (`Board`: the
  moves and `player_turn`) and the session flags (`SendNetMsg`: `start` and
  `player_type`, where 1 is host, 2 guest and 3 spectator). The control
  requests it sends (`new_game`, `join_game`, `start_game`) are appended to
  an outbox. Module `NostrPlugin` models it, in three layers:
  - `Handle` gives the effect of one message and how the loop goes on: next
    message, `break` or `return`.
  - `Drain` and `Tick` give the effect of the whole tick.
  - `HandleNetMsg` is the system over the three resources, and it is proved
    equal to `Tick`. `DrainInbox` is its `while let` loop, and it is proved
    equal to `Drain`.
- **The egui board** (src/app.rs). `Connect4App` keeps the moves as
  `(player, column, row)` triples, the turn, and a per-column "next free row"
  map that starts at 5 and counts down. Module `EguiApp` models it: the fresh
  state, the grid loop of `game_board` with its click branch, and
  `is_game_id_present`.
- **The Bevy board** (src/gui_plugin.rs). The placement step of `place` is a
  variant of the same scheme, for a given hovered column. Module `GuiPlugin`
  models it.

Module `Moves` holds the shared vocabulary: the `Move` record, the turn flip,
counting per column, and the column-fill discipline `Stacked`. Under
`Stacked`, a column's k-th coin lands in row k (network ledger) or in row
5 - k (both local boards), and k stays below 6.

The main invariants proved are these:
- **Network ledger.** Each move's row is the number of earlier moves in its
  column. Players alternate from turn 1, and the turn says who is next.
  Every tick keeps this. A tick appends at most one move.
- **Session.** Once `start` is set, it stays set. After that, role messages
  change nothing, send nothing and end the tick.
- **egui board.** Each column's entry is 5 minus its coin count. An empty
  cell of the grid therefore always has room in its column, and every click
  keeps the invariant.
- **Bevy board.** The row-0 guard lets at most one coin onto row 0 of the
  whole board. No column takes more than six coins, and no cell is filled
  twice.

Notes on the code:
- `Input` is applied whether or not `start` is set.
- `Replay` resets only the board. It leaves `start` and `player_type` as
  they were.
- A `StartGame` that makes the local peer a spectator also ends the tick
  (`return`).
- The dispatcher handles no other message kinds: `NewGame`,
  `JoinGame(peer)`, `StartGame(players)`, `Input(column)` and `Replay`. The
  enum in src/messages.rs is from another revision and does not match it.
  A payload that fails to decode is the extra case `Undecodable`.
- The code has no win or draw detection.

`Board::new()`, `SendNetMsg::new()` and `NetworkStuff::new()` are not shown
in the source. The model assumes the following:
- `Board::new()`: an empty ledger with player 1 to move and no column
  entries.
- `SendNetMsg::new()`: a session with `start == false`,
  `player_type == 0` and an empty outbox.
- `NetworkStuff`: a receiver that is present or absent, with a queue of
  messages.

## Model

| member | source | states |
|---|---|---|
| `Moves.Flip` | src/nostr_plugin.rs:205 | the flipped turn is always 1 or 2, and it is 2 exactly when the turn was 1 |
| `Moves.CountIn` | src/nostr_plugin.rs:161 | the number of moves in a column never exceeds the number of moves |
| `Moves.StackedColumnRows` | src/nostr_plugin.rs:161-166 | under the column-fill discipline a column holds at most 6 moves, and its rows in play order are RowAt(0), RowAt(1), …, RowAt(k-1) |
| `Moves.NoCellTwice` | src/app.rs:139-147 | under the column-fill discipline, two moves in the same column never share a row |
| `Moves.LedgerAtMost42` | src/nostr_plugin.rs:161-166 | a ledger under the column-fill discipline whose columns all lie in 0..6 has at most 42 moves |
| `NostrPlugin.Handle` | src/nostr_plugin.rs:120-224 | the body is the model of one `match` arm per message. Its contract: only an `Input` breaks and only a role message returns; no message but `Input` and `Replay` touches the ledger; `start` is never cleared; at most one request is added to the outbox, after the old ones. `InputPlacement`, `RoleAssignment`, `ReplayResets` and `HandleKeepsLedger` state each arm in full |
| `NostrPlugin.Tick` | src/nostr_plugin.rs:113-119 | the body is the model of one tick, the prologue and then the drain. Its contract: what is left queued is a suffix of the inbox, shorter when connected and the inbox is not empty; without a receiver nothing is consumed and the ledger and `start` are unchanged. `TickSendsNewGameFirst` and the `Drain` lemmas state the rest |
| `NostrPlugin.Drain` | src/nostr_plugin.rs:118-226 | draining consumes a prefix of the queue, at least one message when the queue is not empty, and leaves the rest queued |
| `NostrPlugin.InputPlacement` | src/nostr_plugin.rs:160-207 | `Input(c)` into a column holding k <= 5 moves appends exactly `(turn, c, k)`, flips the turn, leaves the session alone and ends the tick; into a full column it changes nothing and draining goes on |
| `NostrPlugin.RoleAssignment` | src/nostr_plugin.rs:122-157 | before start: `NewGame` sends `join_game` only; `JoinGame(p)` sets start, type 1 and sends `start_game(local, p)`; `StartGame(ps)` sets start and type 3, sends nothing and ends the tick when local holds neither seat, otherwise sets type 2 and sends `start_game(ps)`; the board is untouched |
| `NostrPlugin.ReplayResets` | src/nostr_plugin.rs:210-211 | `Replay` gives an empty ledger with the initial turn, keeps `start`, `player_type` and the outbox, and goes on draining |
| `NostrPlugin.HandleKeepsLedger` | src/nostr_plugin.rs:160-166 | one message keeps the ledger invariant: column fill, alternating players, turn matching the parity of the ledger |
| `NostrPlugin.HandleMoves` | src/nostr_plugin.rs:160-211 | one message leaves the ledger alone, empties it (`Replay`), or appends one move and breaks (`Input`) |
| `NostrPlugin.RoleAfterStartStops` | src/nostr_plugin.rs:122-143 | after start, a `NewGame`/`JoinGame`/`StartGame` at the head of the queue changes nothing, sends nothing and ends the tick with the rest still queued |
| `NostrPlugin.FullColumnSkipped` | src/nostr_plugin.rs:161-162 | an `Input` into a column already holding 6 moves is dropped and draining continues with the next message |
| `NostrPlugin.UndecodableSkipped` | src/nostr_plugin.rs:221-223 | a message that fails to decode is dropped and draining continues with the next message |
| `NostrPlugin.DrainKeepsLedger` | src/nostr_plugin.rs:119-207 | a whole drain keeps the ledger invariant |
| `NostrPlugin.DrainAfterStart` | src/nostr_plugin.rs:123-143 | once started, a drain keeps `start`, never changes `player_type` and sends nothing: the role is assigned at most once |
| `NostrPlugin.DrainAppendsAtMostOne` | src/nostr_plugin.rs:160-207 | a tick appends at most one move to the ledger |
| `NostrPlugin.DrainAfterReplay` | src/nostr_plugin.rs:160-211 | a drain that consumed a `Replay` ends with at most one move: the reset board takes at most one `Input` before the tick ends |
| `NostrPlugin.DrainKeepsPrefix` | src/nostr_plugin.rs:160-211 | if none of the messages a drain consumed is a `Replay`, the old ledger stays a prefix of the new one |
| `NostrPlugin.DrainAppendsFromInput` | src/nostr_plugin.rs:160-207 | if none of the consumed messages is a `Replay`, a move the drain appended came from the last message consumed, an `Input` of that move's column |
| `NostrPlugin.ContinueKeepsMoves` | src/nostr_plugin.rs:122-223 | a message other than `Replay` after which draining goes on leaves the ledger unchanged |
| `NostrPlugin.StopKeepsPrefix` | src/nostr_plugin.rs:122-207 | a message that ends the tick keeps the ledger as a prefix, and any move it adds is in the column of an `Input` |
| `NostrPlugin.DrainOutboxGrows` | src/nostr_plugin.rs:127-154 | a drain only appends to the outbox, in order |
| `NostrPlugin.LedgerShape` | src/nostr_plugin.rs:161-166 | under the ledger invariant each column's rows are exactly 0..k-1 with k <= 6, and with columns in 0..6 the ledger holds at most 42 moves |
| `NostrPlugin.InputColumnUnchecked` | src/nostr_plugin.rs:160-166 | the column of an `Input` is not range-checked: `Input(7)` is accepted into row 0 |
| `NostrPlugin.TickSendsNewGameFirst` | src/nostr_plugin.rs:113-116 | a pending `new_game` request is sent before anything the drain sends |
| `NostrPlugin.NetworkStuff.constructor` | src/nostr_plugin.rs:22 | the receiver resource: whether a receiver is present and the messages queued on it, as given |
| `NostrPlugin.SendNetMsg.constructor` | src/nostr_plugin.rs:23 | the assumed `SendNetMsg::new()`: the local peer and the `created_game` flag as given, not started, type 0, nothing sent |
| `NostrPlugin.Board.constructor` | src/nostr_plugin.rs:211 | `Board::new()`: an empty ledger with the initial turn, which satisfies the ledger invariant |
| `NostrPlugin.HandleNetMsg` | src/nostr_plugin.rs:104-227 | the board, session and queue after the tick are exactly those of `Tick`, so every `Drain` lemma applies; the ledger invariant is kept |
| `NostrPlugin.DrainInbox` | src/nostr_plugin.rs:118-226 | the `while let` loop: the board, session and queue it leaves are exactly those of `Drain` on the board and queue it started from; the `created_game` flag and the receiver are untouched |
| `NostrPlugin.Dispatch` | src/nostr_plugin.rs:120-224 | the body of the drain loop: the new board and session, and how the loop goes on, are those of `Handle` |
| `EguiApp.NewColumnState` | src/app.rs:27-31 | the initial `column_state` has keys exactly 0..6, each mapped to 5 |
| `EguiApp.Initial` | src/app.rs:27-39 | the body is the model of the no-storage state. Its contract: no moves, player 1 to move, game not started, URL not set, keys exactly 0..6, each at 5, and the board invariant holds |
| `EguiApp.CoinLocation` | src/app.rs:139-140 | the body is the model of the lookup with default 5. Its contract: when every stored entry is in -1..5 the result is too. `EmptyCellHasRoom` narrows it to 0..5 for an empty cell |
| `EguiApp.Occupied` | src/app.rs:134-136 | the body is the model of the two `contains` tests. Its contract: a cell is occupied exactly when some recorded move of player 1 or 2 sits in that column and row |
| `EguiApp.Click` | src/app.rs:134-148 | the body is the model of one button in the grid loop. Its contract: an occupied cell ignores the click; `game_start` and `url_set` never change; either nothing changes, or the turn flips and `(new turn, column, coin_location)` is appended. `ClickOnEmptyCell`, `ClickTouchesOneColumn` and `ClickKeepsValid` state the rest |
| `EguiApp.Connect4App.New` | src/app.rs:27-39 | the constructor builds exactly that fresh, valid state |
| `EguiApp.EmptyCellHasRoom` | src/app.rs:134-141 | on a valid board an empty cell's column holds at most 5 coins, and its `column_state` is between 0 and 5 |
| `EguiApp.ClickOnEmptyCell` | src/app.rs:139-147 | a click on an empty cell flips the turn, appends `(new turn, c, column_state[c])` with that row in 0..5, and sets `column_state[c]` one lower |
| `EguiApp.ClickOnOccupiedCell` | src/app.rs:134-137 | an occupied cell draws a button showing its coin whose click result is discarded (`let _ =`), so a click there has no effect |
| `EguiApp.ClickTouchesOneColumn` | src/app.rs:147 | a click changes no other column's `column_state` entry |
| `EguiApp.FirstMoveIsPlayerTwo` | src/app.rs:142-145 | from the fresh state the first recorded move is player 2's, in row 5, because the turn flips before recording |
| `EguiApp.DropKeepsValid` | src/app.rs:142-147 | recording the next coin of a column for the next player keeps the board invariant |
| `EguiApp.ClickKeepsValid` | src/app.rs:131-148 | a click on any cell of the grid keeps the board invariant: each `column_state[c]` is 5 minus the column's coins, columns fill from row 5, players alternate starting with 2 |
| `EguiApp.ColumnStateAfterDrop` | src/app.rs:139-147 | moving the clicked column's entry one row up keeps every entry at 5 minus its column's coins |
| `EguiApp.ColumnsInGridAfterDrop` | src/app.rs:133-147 | a coin dropped into a grid column keeps every recorded move on the grid |
| `EguiApp.ValidBoardIsConsistent` | src/app.rs:131-148 | under the invariant no cell holds two coins and there are at most 42 |
| `EguiApp.IsGameIdPresent` | src/app.rs:156-164 | a path names a game exactly when it has something after the root: "" and "/" do not, every longer path and every one-character path other than "/" does |
| `EguiApp.Connect4App.GameBoard` | src/app.rs:131-151 | one frame of the grid loop has exactly the effect of one `Click` on the clicked cell of the grid, or none, and keeps the invariant |
| `GuiPlugin.Fresh` | src/gui_plugin.rs:17 | the body is the model of the assumed `Board::new()`. Its contract: no moves, player 1 to move, no counters, and the placement invariant holds |
| `GuiPlugin.CoinLocation` | src/gui_plugin.rs:157 | the body is the model of the lookup with default 5. Its contract: when every stored counter is below 6, so is the result. `CoinLocationCounts` ties it to the column's coins |
| `GuiPlugin.AnyRowZero` | src/gui_plugin.rs:163 | the body is the model of the front-to-back `any` scan. Its contract: true exactly when some move sits in row 0 |
| `GuiPlugin.Press` | src/gui_plugin.rs:157-171 | the body is the model of one press. Its contract: the turn flips; at most one move is appended after the old ones; no other column's counter changes. `PressEffect` and `PressKeepsValid` state the rest |
| `GuiPlugin.CoinLocationCounts` | src/gui_plugin.rs:157 | on a valid board a column's counter (5 when missing) is 5 minus the column's coins, never below 0 |
| `GuiPlugin.PressEffect` | src/gui_plugin.rs:157-171 | every press flips the turn; a move is recorded iff `coin_location != 0` or no move sits in row 0; the move is `(new turn, c, coin_location)`; only column c's counter changes, saturating at 0 |
| `GuiPlugin.PressKeepsValid` | src/gui_plugin.rs:153-172 | a press keeps the invariant: columns fill from row 5 with at most 6 coins, at most one coin on row 0, counters consistent |
| `GuiPlugin.DropKeepsValid` | src/gui_plugin.rs:163-171 | recording the next coin of a column keeps the invariant |
| `GuiPlugin.CountersAfterDrop` | src/gui_plugin.rs:166-171 | lowering the dropped column's counter, stopping at 0, keeps every counter at 5 minus its column's coins, and every column with a coin keeps a counter |
| `GuiPlugin.RowZeroAfterDrop` | src/gui_plugin.rs:163-164 | a coin recorded in row 0 only when no move sits there keeps row 0 to at most one coin |
| `GuiPlugin.ValidBoardIsConsistent` | src/gui_plugin.rs:163-171 | under the invariant no cell holds two coins, and with columns in 0..6 there are at most 42 |
| `GuiPlugin.RowZeroElsewhereBlocks` | src/gui_plugin.rs:163 | once one column is full, a column with five coins can no longer take its sixth, though its row 0 is free; the press still flips the turn |
| `GuiPlugin.Board.constructor` | src/gui_plugin.rs:17 | `Board::new()` is the fresh board and is valid |
| `GuiPlugin.Board.PressColumn` | src/gui_plugin.rs:157-171 | the in-place update of one press over a column is exactly `Press` on the board's old value |
| `GuiPlugin.Board.Place` | src/gui_plugin.rs:136-212 | the first grid position in the hovered column takes a press, the loop then breaks, so a frame applies one `Press` at most; the invariant is kept |

## Left out

- The network task in `setup` (src/nostr_plugin.rs:29-101) is not modelled: relay connections, subscriptions, `spawn_local`, channel plumbing and `handle_notifications` are asynchronous I/O. The inbound channel is a sequence of already-decoded messages, and `network_stuff.read` being absent is the flag `connected`.
- JSON decoding with `serde_json` is a foreign library. A payload is either a decoded `NetMsg` or `Undecodable`.
- The bodies of `new_game`, `join_game` and `start_game` are not shown. Their calls are appended to the outbox as `NewGameReq`, `JoinGameReq` and `StartGameReq(players)`.
- Sprite spawning, despawning, transforms and the replay-button visibility (src/nostr_plugin.rs:168-203, 212-217; src/gui_plugin.rs:174-209) are rendering with floating point.
- The Bevy `setup` grid and `move_coin` animation (src/gui_plugin.rs:23-73, 221-245) are rendering.
- Cursor and touch hit-testing and hover colouring (src/gui_plugin.rs:91-152, 213-217) are UI. The hovered column, whether a button was just pressed, and the query order of the grid positions are inputs of `Place`.
- egui layout and styles, the URL and history update, the clipboard, `nanoid` and loading stored state (src/app.rs:23-25, 48-130) are UI and browser I/O. `is_game_id_present` takes the page path as an input. `None` stands for no browser window or for a failing `pathname()`. It also covers every build not for `wasm32`, where the function always returns false (src/app.rs:157-163).
- Which button egui reports as clicked is an input of `GameBoard`. An occupied cell draws a button showing its coin whose click result is discarded (`let _ =`), so a click there has no effect.
- The browser-extension key lookup (docs/snippets/connect4xyz-b04a8432de02f223/inline0.js) is foreign I/O.
- src/main.rs, src/player.rs, src/components.rs and src/resources.rs are app wiring and bare structs. The unused `winner` and `game_over` fields get no model.
- Win and draw detection does not exist in this code.
- Integer widths are not modelled (`i32` in src/app.rs, `usize` elsewhere). No value can reach a bound: rows and counters stay within -1..6, and the ledger invariant limits column counts. The Bevy counters are `nat`, as `usize` is.
