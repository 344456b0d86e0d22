# Online tic-tac-toe: matchmaking relay and board rules

This project models, in Dafny, the two pieces of logic of a two-player online
tic-tac-toe game:

- **The relay server** (`backend/server.js`). It keeps one waiting slot and a
  registry from socket id to display name. It handles four socket events:
  - `join` registers the name. It then pairs the newcomer with the waiting
    connection, announcing `gamestart` to everyone, or takes the slot.
  - `move` relays a board snapshot to everyone.
  - `exit` tells one other registered connection that its opponent left.
  - `disconnect` gives up the slot and unregisters the connection.
- **The browser client** (`frontend/tic-tac-toe/src/App.jsx`). It holds the
  board, the turn and both players. It covers:
  - the winner search `checkWinner`;
  - the click handler, which enforces turn and empty-cell rules, writes one
    mark, passes the turn, emits the move, and resets on a win or a draw;
  - `resetGame`;
  - the `gamestart`, `move` and `opponentExit` socket handlers;
  - the form submit and exit buttons.

Layout:

- `wrappers.dfy`: `Option`, standing for `undefined`/`null`.
- `registry.dfy`, module `Registry`: the `players` object as an
  insertion-ordered sequence of `(id, name)` entries. `Object.keys` order
  decides which id `exit` notifies, so the order is kept. Assigning to a
  present key keeps its position; a new key goes last.
- `protocol.dfy`, module `Protocol`: the events on the wire.
- `backend.dfy`, module `Backend`:
  - class `Server`, with fields `waiting`, `players` and `outbox`. `io.emit`
    and `io.to(id).emit` append to `outbox`.
  - one method per handler.
  - scenario methods that run the handlers in sequence and state what is
    emitted.
- `board.dfy`, module `Board`:
  - the board and the eight lines;
  - `Winner`, the reference definition of `checkWinner`;
  - `CheckWinner`, the loop itself, proved equal to `Winner`;
  - lemmas about moves.
- `tictactoe.dfy`, module `TicTacToe`: class `App`, with one field per React
  state variable, and one method per handler. `alert` becomes a returned
  `ClickOutcome`. A handler that calls the same setter twice keeps the later
  value. For example, a winning click sets the new board and then the empty
  board, so the empty board stays.

Modelling choices:

- `Math.random() < 0.5` becomes a `coin: bool` parameter. When `coin` holds,
  player1 moves first.
- JavaScript truthiness is kept. `if (waitingPlayer)` and `if (opponentId)` are
  false for the empty string, so the slot is `Occupied` only when it holds a
  non-empty id. `exit` notifies only a non-empty id.
- The registry can lose an id while the slot still holds it, after `exit`. The
  name in `gamestart` is therefore `Option<string>`.

Behaviour of the code that the model keeps as it is:

- Registry order matters: `exit` notifies the earliest registered other id
  (backend/server.js:62), whether or not it is the leaver's partner
  (`Backend.ExitNotifiesEarliest`).
- The slot can hold an id that is no longer registered: `exit` unregisters
  without clearing it, so a later joiner is paired with an unnamed, departed
  id (`Backend.ExitLeavesSlotTaken`).
- `join` does not check that the joiner differs from the waiting id
  (`Backend.JoinTwice`).
- The client records as its own name the name chosen by whose turn it is
  (frontend/tic-tac-toe/src/App.jsx:21), so it can record and later re-send its
  opponent's name (`TicTacToe.RejoinSendsOpponentsName`; see Findings).

## Model

| member | source | states |
|---|---|---|
| `Registry.Keys` | backend/server.js:62 | `Object.keys(players)`: the registered ids, one per entry, in registry order |
| `Registry.Lookup` | backend/server.js:37 | `players[id]` is defined exactly when `id` is registered, and then it is the name registered with it |
| `Registry.Put` | backend/server.js:33 | assigning `players[id]` keeps the key order when `id` is present and appends `id` last otherwise |
| `Registry.Remove` | backend/server.js:66 | after `delete players[id]` the registered ids are exactly the old ones other than `id` |
| `Registry.FindOther` | backend/server.js:62 | `Object.keys(players).find(id => id !== sid)`: undefined exactly when every registered id is `sid`; otherwise the earliest registered id that differs from `sid` |
| `Registry.LookupPutSame` | backend/server.js:33 | after `players[id] = name`, `players[id]` is `name`, whatever was registered before |
| `Registry.LookupPutOther` | backend/server.js:33 | `players[id] = name` leaves every other id's name unchanged |
| `Registry.LookupRemoveSame` | backend/server.js:66 | after `delete players[id]`, `players[id]` is undefined |
| `Registry.LookupRemoveOther` | backend/server.js:74 | `delete players[id]` leaves every other id's name unchanged |
| `Registry.RemoveAbsent` | backend/server.js:74 | deleting an id that was never registered changes nothing |
| `Registry.PutKeepsDistinct` | backend/server.js:33 | assignment keeps every id registered at most once |
| `Registry.RemoveKeepsDistinct` | backend/server.js:66 | deletion keeps every id registered at most once |
| `Backend.Server.constructor` | backend/server.js:25-26 | the server starts with an empty slot, an empty registry and nothing emitted |
| `Backend.Server.Join` | backend/server.js:31-54 | registers `players[sid] = name` and leaves the other names alone. With a non-empty waiting id it emits one `gamestart` (player1: the waiting id with its registered name, possibly undefined; player2: the joiner with its name; first turn by the coin, always one of the two) and empties the slot. Otherwise it puts `sid` in the slot and emits nothing. Ids stay distinct and every `gamestart` ever emitted names one of its players as first turn |
| `Backend.Server.Move` | backend/server.js:56-58 | appends the payload unchanged as a broadcast; registry and slot untouched |
| `Backend.Server.Exit` | backend/server.js:60-67 | emits `opponentExit` only to the earliest registered id other than `sid`, and only when there is one and it is non-empty. Then it unregisters `sid`, leaves other names alone and is a no-op on an unregistered `sid`. The slot is unchanged |
| `Backend.Server.Disconnect` | backend/server.js:69-75 | empties the slot exactly when it held `sid`, otherwise leaves it. Unregisters `sid` (a no-op when absent), leaves other names alone and emits nothing |
| `Backend.PairTwo` | backend/server.js:31-54 | two joins in a row: exactly one `gamestart` with the first joiner as player1 and the second as player2, both under their own names; slot empty afterwards |
| `Backend.CancelThenJoin` | backend/server.js:69-73 | a waiting connection that disconnects frees the slot: the next joiner waits and nothing is emitted |
| `Backend.MoveAfterPairing` | backend/server.js:56-58 | after a pairing a move is relayed verbatim, after the `gamestart` |
| `Backend.ExitAfterPairing` | backend/server.js:60-67 | after a pairing, player1's exit notifies player2; player1 is unregistered, player2 keeps its name |
| `Backend.ExitLeavesSlotTaken` | backend/server.js:60-67 | join then exit leaves the slot taken: the next joiner is paired with the departed id, whose name is undefined |
| `Backend.JoinTwice` | backend/server.js:35-38 | a connection that joins twice is paired with itself, under its latest name |
| `Backend.ExitNotifiesEarliest` | backend/server.js:62-64 | the exit notice goes to the earliest registered other id, here player1 of another game, not a partner |
| `Board.EmptyBoard` | frontend/tic-tac-toe/src/App.jsx:97 | `Array(9).fill(-1)`: nine empty cells |
| `Board.FirstWinningLine` | frontend/tic-tac-toe/src/App.jsx:86-91 | the index of the first line, in the listed order, whose three cells hold the same non-empty mark (or 8 when none does) |
| `Board.Winner` | frontend/tic-tac-toe/src/App.jsx:79-94 | -1 exactly when no line (a, b, c) has `cells[a] != -1 && cells[a] == cells[b] == cells[c]`; otherwise `cells[a]` of the first such line; so always -1 or a mark on the board |
| `Board.CheckWinner` | frontend/tic-tac-toe/src/App.jsx:79-94 | the loop returns `Winner(cells)`: -1 exactly when no line wins, otherwise a mark present on the board |
| `Board.Mark` | frontend/tic-tac-toe/src/App.jsx:43-44 | the copied board differs from the old one in cell `cell` alone, which holds the mark |
| `Board.FullIffNoEmpty` | frontend/tic-tac-toe/src/App.jsx:55 | `Full`, which models `every(cell => cell !== -1)`, holds exactly when the count of empty cells is zero |
| `Board.MarkFillsOneEmpty` | frontend/tic-tac-toe/src/App.jsx:42-44 | an accepted move fills exactly one empty cell: the count of empty cells drops by one |
| `Board.MoverIsOnlyPossibleWinner` | frontend/tic-tac-toe/src/App.jsx:51-53 | on a board no line wins, a move can only make the mover's mark the winner |
| `TicTacToe.NameAsWrittenTakesOpponentsName` | frontend/tic-tac-toe/src/App.jsx:21 | as written, player1 whose opponent moves first records the opponent's name as its own |
| `TicTacToe.NameAsWrittenCounterexample` | frontend/tic-tac-toe/src/App.jsx:21 | concretely: Alice (player1, not first to move) records "Bob" |
| `TicTacToe.OwnName` | frontend/tic-tac-toe/src/App.jsx:21 | corrected: the client records the name paired with its own id, whoever moves first |
| `TicTacToe.NameAsWrittenRightIffPlayer1Starts` | frontend/tic-tac-toe/src/App.jsx:21 | between two players with different ids and names, the name recorded as written is the client's own exactly when player1 moves first |
| `TicTacToe.App.constructor` | frontend/tic-tac-toe/src/App.jsx:6-13 | the initial state: no game, no form submitted, empty names and turn, an empty board, no socket |
| `TicTacToe.App.Connect` | frontend/tic-tac-toe/src/App.jsx:16-17 | the socket exists under its id; nothing else changes |
| `TicTacToe.App.ResetGame` | frontend/tic-tac-toe/src/App.jsx:96-100 | all nine cells empty, `gameStart` and `formSubmitted` false; turn and players untouched |
| `TicTacToe.App.OnGameStart` | frontend/tic-tac-toe/src/App.jsx:19-26 | the game starts with the announced players and first turn, the form flag cleared, and this client's own id with `player1.name` when the first turn is this client's, else `player2.name`, as written (see Findings) |
| `TicTacToe.App.OnMove` | frontend/tic-tac-toe/src/App.jsx:28-31 | board and turn are replaced wholesale by the payload's; nothing else changes |
| `TicTacToe.App.OnOpponentExit` | frontend/tic-tac-toe/src/App.jsx:33-36 | the game is reset |
| `TicTacToe.App.HandleClick` | frontend/tic-tac-toe/src/App.jsx:41-62 | rejected, with nothing changed, exactly unless it is this player's turn and the cell is an empty cell of the board. Otherwise: exactly that cell gets 0 (player1) or 1, the turn passes to the other player, and that board and turn are emitted when the socket exists. The outcome is a win (named by the winning mark's player) exactly when `checkWinner` is not -1, and a draw exactly when there is no winner and the board is full; either one resets the game |
| `TicTacToe.App.HandleSubmit` | frontend/tic-tac-toe/src/App.jsx:64-70 | marks the form submitted and emits `join` with the name only when the socket exists and the name is non-empty |
| `TicTacToe.App.HandleExit` | frontend/tic-tac-toe/src/App.jsx:72-77 | emits `exit` when the socket exists, then resets the game |
| `TicTacToe.RejoinSendsOpponentsName` | frontend/tic-tac-toe/src/App.jsx:21 | player1 whose opponent moved first exits and submits the form again: it emits `exit` and then `join` under its opponent's name |
| `TicTacToe.OpeningMoveReachesOpponent` | frontend/tic-tac-toe/src/App.jsx:41-50 | player1's opening move in the centre is accepted without ending the game; relayed to player2's client, it shows the same board and it is player2's turn |

## Findings

| source | as written | input that shows it | evidently intended | confidence | as-written member | corrected member |
|---|---|---|---|---|---|---|
| frontend/tic-tac-toe/src/App.jsx:21 | the client records as its own name `player1.name` when it moves first, else `player2.name` | player1 `a` "Alice", player2 `b` "Bob", first turn `b`: client `a` records "Bob" as its name | the name paired with the client's own id | medium (the wrong name is what the form shows and re-sends after the game); not executed | `TicTacToe.NameAsWrittenTakesOpponentsName` | `TicTacToe.OwnName` |

## Left out

- Server setup and transport: the HTTP server, CORS and static files,
  `server.listen`, `io.on('connection')`, and the delivery of broadcasts and
  targeted emits. Emits are appended to an outbox, and who receives them is
  not modelled.
- `Math.random()` is a boolean parameter, so the fairness of the coin is not
  stated.
- `console.log` and the `alert` texts. A click's alert is a `ClickOutcome`
  carrying the winner's name. The `opponentExit` alert is dropped.
- React rendering, the name input's `onChange` and the effect's cleanup
  `disconnect`. React's asynchronous batching of state updates is modelled
  as sequential assignment in which the last setter wins.
- JavaScript property-order corner cases. Integer-like strings are listed by
  `Object.keys` before other keys, and `__proto__` is special. Socket ids are
  taken as ordinary strings.
- The `join` payload can be any value in JavaScript. It is modelled as a
  string.
- `TicTacToe.App.OnMove` requires a 9-cell payload. A malformed board from a
  client that does not follow the protocol is not modelled.
- The `move` payload, which the server relays whatever it is, is modelled as
  a board (a sequence of integers) plus the id whose turn is next.
- `Registry.Remove` states which ids remain, not that their relative order is
  kept. The function body does keep it.
- Concurrency: handlers run one at a time to completion, so each is one
  method call.
