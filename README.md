# Tic-tac-toe game server: a Dafny model of its game-state engine

This project models the game-state engine of a two-player tic-tac-toe
WebSocket server (`src/server.js`). The server keeps two in-memory tables:
`clients`, which maps a client id to its connection, and `games`, which maps a
game id to a game record (its players and its 9-cell board). Clients send
`create`, `join` and `makeMove` messages. The server updates the tables and
answers with `connect`, `create`, `join`, `updateBoard`, `gameEnds`, `draw` and
`gamesAvail` messages.

Modules, one per concern:

- `Rules` (`rules.dfy`): cells, marks, the board, the eight `WIN_STATES`
  lines, the win test (`IsWinner`), the draw test (`IsDraw`) and `Evaluate`,
  which gives the move handler's decision. An independent geometric
  definition (`ThreeInARow`) is proved equivalent to the `WIN_STATES` test.
- `Ordering` (`ordering.dfy`): the order in which `Object.values` visits the
  two tables. Their keys are small non-negative integers, and JavaScript
  enumerates such keys in ascending order.
- `Games` (`games.dfy`): player and game records, the records a create and a
  join produce, `players.find(p => p.isTurn)` (`FindTurn`), and the loop that
  flips every `isTurn` flag (`FlipTurns`, specified by `Flipped`).
- `Protocol` (`protocol.dfy`): client messages and the tag switch (`Route`),
  server payloads, the open-game list (`OpenGames`), and the lists of
  envelopes that a broadcast or a per-player send produces.
- `GameServer` (`server.dfy`): class `Server`, with fields `games`, `clients`
  and `outbox`. It has one method per handler: connect, close,
  `handleClientMessage`, `handleCreateGame`, `handleJoinGame`,
  `handleMakeMove`, `makeMove` and `sendAvailableGames`. The `switch` of
  `handleClientMessage` is split in two: `Protocol.Route` turns the `method`
  tag and the message fields into a `Message`, and
  `Server.HandleClientMessage` dispatches on that `Message`. `Valid()` is the
  object invariant: every game is stored under its own id, its first player
  is 'x', later players are 'o', and the win/loss counters stay at zero.
- `ServerScenario` (`scenario.dfy`): a client of the `Server` contracts. It
  connects two clients, passes a create, a join and an unknown message
  through `Route` and `HandleClientMessage`, and plays two moves. It relies only on what the handlers promise.

Sends are not performed. Each send appends `Envelope(connection, payload)` to
`outbox`. Game and client ids, which the server draws with `Math.random`, are
parameters. Ids are not assumed to be unique: a create under an id already in
use replaces that game, as the source's assignment does. Where the source
would throw, the condition is a `requires`. This covers an unknown game id on
join or move, a move when no player holds the turn, and a send to a client id
that is not in `clients`.

Where the code differs from what a hardened server would do, the model follows the code:

- There is no open/in-progress/finished phase. After a win or a draw, a
  further move on the same game is still processed.
- A join does not check the number of players. A third join appends another
  'o' player, and the next continuing move then leaves two players holding
  the turn (`Games.ThirdPlayerBreaksTurns`).
- A move on a game that nobody has joined yet is judged for the creator and
  then flips the creator's `isTurn` to false. After a join, no player holds
  the turn, and the next move throws at `currPlayer.symbol`
  (`Games.SoloMoveStallsGame`). In the model that next move is excluded by
  `HandleMakeMove`'s precondition.
- The submitted board replaces the stored board as sent. The server does not
  check which cells changed, and it does not check who sent the move. It
  judges the board for the first player whose `isTurn` is set.
- The draw test does not wait for a full board. It reports a draw once every
  line holds both an 'x' and an 'o' (`Rules.DrawBeforeBoardIsFull`). A full
  board with no line passes it (`Rules.FullNoWinIsDraw`).
- A send to an unregistered client throws; it does not fail silently. Here
  that is a precondition.
- After a join, the open-game list is not re-sent.

## Model

| member | source | states |
|---|---|---|
| `Rules.IsWinner` | src/server.js:162-164 | Definition of the win test. Its properties are stated by `Rules.Evaluate`, `Rules.WinnerIffThreeInARow` and `Rules.DrawExcludesWin`. |
| `Rules.IsDraw` | src/server.js:177-180 | Definition of the draw test. Its properties are stated by `Rules.Evaluate`, `Rules.DrawExcludesWin`, `Rules.FullNoWinIsDraw` and `Rules.DrawBeforeBoardIsFull`. |
| `Rules.Evaluate` | src/server.js:159-190 | Win exactly when some `WIN_STATES` line is filled with the mover's mark, and the winner is the mover. A draw means every line holds both marks and neither mark fills a line. Otherwise some line still lacks a mark. |
| `Rules.WinnerIffThreeInARow` | src/server.js:10-14 | The `WIN_STATES` test holds exactly when some row, column or diagonal of the 3x3 grid is filled with the mark. |
| `Rules.DrawExcludesWin` | src/server.js:177-180 | A board that passes the draw test has no line filled with either mark, so a draw and a win cannot both hold. |
| `Rules.FullNoWinIsDraw` | src/server.js:177-180 | A full board of 'x' and 'o' cells with no filled line passes the draw test. |
| `Rules.DrawBeforeBoardIsFull` | src/server.js:177-189 | A board with an empty centre passes the draw test and has no winner, so the server can announce a draw before the board is full. |
| `Rules.TopRowWins` | src/server.js:162-174 | A board whose top row is all 'x' is a win for 'x'. |
| `Rules.FullBoardDraw` | src/server.js:177-189 | A full board with no filled line is judged a draw. |
| `Ordering.Least` | src/server.js:211 | The element it picks is in the set and is no larger than any other element. |
| `Ordering.Ascending` | src/server.js:211 | The table's keys in strictly ascending order, each exactly once, and nothing else. |
| `Games.FindTurn` | src/server.js:159 | Gives the first player whose `isTurn` is set: that player holds the turn and no earlier player does. `None` exactly when no player holds the turn. |
| `Games.Flipped` | src/server.js:192-194 | Definition of the flip. Its properties are stated by `Games.FlipNegatesEachTurn`, `Games.FlipAlternates` and `Games.FlipKeepsWellFormed`; `Games.FlipTurns` is proved to compute it. |
| `Games.FlipTurns` | src/server.js:192-194 | The loop's result is `Flipped(players)`: the same players in the same order, each with `isTurn` negated. |
| `Games.FlipNegatesEachTurn` | src/server.js:192-194 | The flip negates each turn flag, keeps the client id, symbol and counters, and flipping twice gives back the original list. |
| `Games.FlipAlternates` | src/server.js:192-194 | With two players and exactly one on turn, exactly one is on turn after the flip, and it is the other player. |
| `Games.ThirdPlayerBreaksTurns` | src/server.js:143 | After create and two joins, a flip leaves two players holding the turn. |
| `Games.SoloMoveStallsGame` | src/server.js:155-194 | After a continuing move on a one-player game, nobody holds the turn, and after a join still nobody does. |
| `Games.NewGame` | src/server.js:107-123 | Definition of the record a create stores. Its properties are stated by `Games.NewGameShape`. |
| `Games.WithJoiner` | src/server.js:134-143 | Definition of the record a join leaves. Its properties are stated by `Games.JoinShape`. |
| `Games.NewGameShape` | src/server.js:107-123 | A created game has one player: the creator, 'x', on turn, both counters 0. Its board is 9 empty cells and its shape is well formed. |
| `Games.JoinShape` | src/server.js:134-143 | A join appends exactly one player, 'o' and not on turn. The board and the existing players are unchanged, the turn holder is unchanged, and the shape stays well formed. |
| `Games.FindTurnAppendIdle` | src/server.js:143 | Appending a player without the turn does not change who `find` picks as turn holder. |
| `Games.CreateJoinMoveTurns` | src/server.js:107-143 | After create and join the creator holds the turn. After one continuing move the joiner holds it, and after the next the creator does again. |
| `Games.FlipKeepsWellFormed` | src/server.js:192-194 | Flipping the turn flags keeps a game well formed. |
| `Protocol.Route` | src/server.js:90-104 | The message is a `Create` exactly when the tag is `create`, a `Join` exactly when it is `join`, and a `MakeMove` exactly when it is `makeMove`. Each carries its fields. Every other tag becomes `Unknown`, keeping the tag. |
| `Protocol.FilterOpen` | src/server.js:211-213 | Keeps exactly the keys whose game has fewer than two players, and keeps them in ascending order. |
| `Protocol.OpenGames` | src/server.js:210-213 | The `gamesAvail` list holds exactly the ids of games with fewer than two players, each once, in ascending order. |
| `Protocol.Broadcast` | src/server.js:220-222 | Definition of a send to every registered client, in the order `Object.values` visits them. Its properties are stated by `Protocol.BroadcastReachesAll`; `GameServer.Server.SendToAll` is proved to append it. |
| `Protocol.Deliver` | src/server.js:220-222 | Definition of one send of a payload to each client of a list of ids. `GameServer.Server.SendEach` is proved to append it. |
| `Protocol.BroadcastReachesAll` | src/server.js:220-222 | A broadcast has one envelope per registered client, each carries the payload to a registered connection, and every registered client is reached. |
| `Protocol.ToPlayers` | src/server.js:171-173 | Definition of one send to each player of a game. Its properties are stated by `Protocol.ToPlayersReachesPlayers`. |
| `Protocol.ToPlayersReachesPlayers` | src/server.js:205-207 | A per-player send has one envelope per player. Each envelope carries the payload to the connection of some player of the game, and every player's connection receives one. |
| `Protocol.CreateOpensJoinCloses` | src/server.js:119-143 | A created game is in the open-game list, and after one join it is not. |
| `Protocol.OpenGamesUpdate` | src/server.js:211-213 | Replacing one game can change only that game's membership in the open-game list, and it is listed exactly when it has fewer than two players. |
| `GameServer.Server.constructor` | src/server.js:6-7 | The server starts with both tables and the outbox empty. |
| `GameServer.Server.Connect` | src/server.js:65-72 | Registers the connection under the client id and leaves games unchanged. It sends `connect` to the new connection, then the open-game list to every client, the new one included. |
| `GameServer.Server.Close` | src/server.js:79-83 | Removes only that client id, leaves games unchanged, and sends the open-game list to the remaining clients. |
| `GameServer.Server.HandleClientMessage` | src/server.js:90-104 | `clients` never changes. An unknown message changes nothing and sends nothing. A create stores the new game and sends `create` and the open-game list. A join appends the joiner and sends `join` and `updateBoard`. A move stores the board, flips every `isTurn` flag only when the board is neither a win nor a draw for the turn holder, and sends `gameEnds`, `draw` or `updateBoard` to each player. |
| `GameServer.Server.HandleCreateGame` | src/server.js:107-132 | Stores the new one-player game under the given id and leaves every other game unchanged. It answers the creator with the game, then sends the open-game list to every client. |
| `GameServer.Server.HandleJoinGame` | src/server.js:134-153 | Replaces the game with the joined record (one 'o' player appended). It answers the joiner, then sends `updateBoard` to exactly the game's players. |
| `GameServer.Server.HandleMakeMove` | src/server.js:155-197 | The board is always replaced. On a win or a draw, nothing else changes and `gameEnds`/`draw` goes to each player. Otherwise every `isTurn` flag is flipped and `updateBoard` goes to each current player. |
| `GameServer.Server.SendBoard` | src/server.js:199-208 | Appends one `updateBoard` envelope carrying the game to each of its players. |
| `GameServer.Server.SendToPlayers` | src/server.js:171-173 | The per-player send loop appends exactly `ToPlayers(clients, players, payload)`. |
| `GameServer.Server.SendAvailableGames` | src/server.js:210-223 | Appends the broadcast of the open-game list of the current `games` table. |
| `GameServer.Server.SendToAll` | src/server.js:220-222 | The loop over `clients` appends `Broadcast(clients, payload)`: one envelope per client, in ascending client-id order. |
| `GameServer.Server.SendEach` | src/server.js:220-222 | The send loop over a list of registered client ids appends exactly `Deliver(clients, ids, payload)`. |
| `ServerScenario.OpeningMovesContinue` | src/server.js:162-180 | 'x' in a corner, then 'o' in the centre: neither board is a win or a draw for its mover. |
| `ServerScenario.CreateGame` | src/server.js:90-132 | A `create` message from client 1, routed and handled, stores the one-player game under the drawn id, and that game is listed as open. |
| `ServerScenario.JoinGame` | src/server.js:90-153 | A `join` message from client 2, routed and handled, appends the joiner, and the game is no longer listed as open. |
| `ServerScenario.PlayOpening` | src/server.js:155-197 | On a created and joined game, the two opening moves hand the turn to 'o' and back to 'x', and the board is the one last submitted. |

## Left out

- The HTTP static file server, its content-type switch and file reads (src/server.js:16-59): file-system I/O.
- WebSocket setup, `request.accept`, `listen`, `JSON.parse`/`JSON.stringify` and `connection.send` (src/server.js:61-88): transport and serialisation. A send is an outbox entry. A payload holds the game record as it was at the time of the send, which is what serialisation at send time gives.
- `Math.random` id generation (src/server.js:68, 116): ids are method parameters.
- `console.log` for unknown methods (src/server.js:102): logging.
- Message fields that are not numbers, and boards that are not nine cells of '', 'x' or 'o'. The source accepts any JSON value there, but the model types these fields.
- Game records are values in the `games` map, not shared objects. The handlers reach a game only through the table, so no aliasing is lost.
- Table keys that are not small integers: the ascending visiting order holds only for integer-like keys, which are the only keys the server creates.
- `src/client.js`: browser DOM handling and the WebSocket client.
- Concurrency between connections: Node runs one handler at a time, so each handler is one atomic method.
- `ServerScenario.CreateJoinAndPlay` has no contract: it only shows that the handler contracts compose.
