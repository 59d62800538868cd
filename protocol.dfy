/** The server's messages: what clients send, what the server sends back, and
    which connections a notification goes to. Sends are not performed; each
    one is an `Envelope` the server appends to its outbox. */
module Protocol {
  import opened Rules
  import opened Ordering
  import opened Games

  /** An opaque handle for a client's WebSocket connection. */
  datatype Connection = Connection(handle: nat)

  /** A parsed client message, by its `method` tag. A `makeMove` message names
      the game by `game.gameId` and carries the client's board `game.board`. */
  datatype Message =
    | Create(clientId: ClientId)
    | Join(clientId: ClientId, gameId: GameId)
    | MakeMove(gameId: GameId, board: Board)
    | Unknown(tag: string)

  /** The switch of `handleClientMessage`: three tags are routed, every other
      tag is ignored. */
  function Route(tag: string, clientId: ClientId, gameId: GameId, board: Board): (m: Message)
    ensures m.Create? <==> tag == "create"
    ensures m.Join? <==> tag == "join"
    ensures m.MakeMove? <==> tag == "makeMove"
    ensures m.Unknown? <==> tag != "create" && tag != "join" && tag != "makeMove"
    ensures m.Unknown? ==> m.tag == tag
    ensures m.Create? ==> m.clientId == clientId
    ensures m.Join? ==> m.clientId == clientId && m.gameId == gameId
    ensures m.MakeMove? ==> m.gameId == gameId && m.board == board
  {
    if tag == "create" then Create(clientId)
    else if tag == "join" then Join(clientId, gameId)
    else if tag == "makeMove" then MakeMove(gameId, board)
    else Unknown(tag)
  }

  /** Server-to-client payloads, by their `method` tag. */
  datatype Payload =
    | Connected(clientId: ClientId)       // 'connect'
    | Created(game: Game)                 // 'create'
    | Joined(game: Game)                  // 'join'
    | UpdateBoard(game: Game)             // 'updateBoard'
    | GameEnds(winner: Mark)              // 'gameEnds'
    | Drawn                               // 'draw'
    | GamesAvail(games: seq<GameId>)      // 'gamesAvail'

  datatype Envelope = Envelope(to: Connection, payload: Payload)

  predicate IsOpen(g: Game)
  {
    |g.players| < 2
  }

  /** `filter(game => game.players.length < 2)` over keys in table order. */
  function FilterOpen(games: map<GameId, Game>, keys: seq<GameId>): (r: seq<GameId>)
    requires forall k :: k in keys ==> k in games
    requires Increasing(keys)
    ensures Increasing(r)
    ensures forall id :: id in r <==> id in keys && IsOpen(games[id])
  {
    if keys == [] then []
    else
      var rest := FilterOpen(games, keys[1..]);
      if IsOpen(games[keys[0]]) then
        HeadBelowRest(keys, rest);
        [keys[0]] + rest
      else rest
  }

  lemma HeadBelowRest(keys: seq<nat>, rest: seq<nat>)
    requires keys != [] && Increasing(keys) && Increasing(rest)
    requires forall x :: x in rest ==> x in keys[1..]
    ensures Increasing([keys[0]] + rest)
  {
    var s := [keys[0]] + rest;
    forall i, j | 0 <= i < j < |s| ensures s[i] < s[j] {
      if i == 0 {
        assert s[j] == rest[j - 1] && rest[j - 1] in keys[1..];
        var k :| 0 <= k < |keys[1..]| && keys[1..][k] == s[j];
        assert keys[k + 1] == s[j];
      }
    }
  }

  /** The list `sendAvailableGames` sends: the ids of all games with fewer
      than two players, each once, in ascending order. */
  function OpenGames(games: map<GameId, Game>): (ids: seq<GameId>)
    ensures Increasing(ids)
    ensures forall id :: id in ids <==> id in games && IsOpen(games[id])
  {
    FilterOpen(games, Ascending(games.Keys))
  }

  /** The `forEach` over `Object.values(clients)`: one copy of `p` per
      registered client, in ascending client order. */
  function Broadcast(clients: map<ClientId, Connection>, p: Payload): seq<Envelope>
  {
    Deliver(clients, Ascending(clients.Keys), p)
  }

  /** One copy of `p` for each listed client id, in list order. */
  function Deliver(clients: map<ClientId, Connection>, ids: seq<ClientId>, p: Payload): seq<Envelope>
    requires forall id :: id in ids ==> id in clients
  {
    seq(|ids|, i requires 0 <= i < |ids| => Envelope(clients[ids[i]], p))
  }

  /** Every registered client receives the broadcast, once per registration,
      and nothing else is in it. */
  lemma BroadcastReachesAll(clients: map<ClientId, Connection>, p: Payload)
    ensures |Broadcast(clients, p)| == |clients.Keys|
    ensures forall e :: e in Broadcast(clients, p) ==> e.payload == p && e.to in clients.Values
    ensures forall id :: id in clients ==> Envelope(clients[id], p) in Broadcast(clients, p)
  {
    var ids := Ascending(clients.Keys);
    var r := Broadcast(clients, p);
    forall e | e in r ensures e.payload == p && e.to in clients.Values {
      var i :| 0 <= i < |r| && r[i] == e;
      assert ids[i] in ids;
    }
    forall id | id in clients ensures Envelope(clients[id], p) in r {
      var i :| 0 <= i < |ids| && ids[i] == id;
      assert r[i] == Envelope(clients[id], p);
    }
  }

  /** Every player's client is registered, so a send to each cannot fail. */
  predicate Reachable(clients: map<ClientId, Connection>, ps: seq<Player>)
  {
    forall i :: 0 <= i < |ps| ==> ps[i].clientId in clients
  }

  /** One copy of `p` for each player, in player order, sent to that player's
      registered connection. */
  function ToPlayers(clients: map<ClientId, Connection>, ps: seq<Player>, p: Payload): seq<Envelope>
    requires Reachable(clients, ps)
  {
    seq(|ps|, i requires 0 <= i < |ps| => Envelope(clients[ps[i].clientId], p))
  }

  /** A per-player send carries `p` and nothing else, goes only to connections
      of the game's players, reaches every player, and sends one message per
      player. */
  lemma ToPlayersReachesPlayers(clients: map<ClientId, Connection>, ps: seq<Player>, p: Payload)
    requires Reachable(clients, ps)
    ensures |ToPlayers(clients, ps, p)| == |ps|
    ensures forall e :: e in ToPlayers(clients, ps, p) ==>
      e.payload == p && exists i :: 0 <= i < |ps| && e.to == clients[ps[i].clientId]
    ensures forall i :: 0 <= i < |ps| ==> Envelope(clients[ps[i].clientId], p) in ToPlayers(clients, ps, p)
  {
    var r := ToPlayers(clients, ps, p);
    forall e | e in r
      ensures e.payload == p && exists i :: 0 <= i < |ps| && e.to == clients[ps[i].clientId]
    {
      var i :| 0 <= i < |r| && r[i] == e;
      assert e.to == clients[ps[i].clientId];
    }
    forall i | 0 <= i < |ps| ensures Envelope(clients[ps[i].clientId], p) in r {
      assert r[i] == Envelope(clients[ps[i].clientId], p);
    }
  }

  /** The message a judged move sends to the players of the stored game `g`:
      the winner, the draw, or the updated game. */
  function MoveNotice(o: Outcome, g: Game): Payload
  {
    match o
    case Win(w) => GameEnds(w)
    case Draw => Drawn
    case Continue => UpdateBoard(g)
  }

  /** A created game is listed as open; a game joined once is not. */
  lemma CreateOpensJoinCloses(games: map<GameId, Game>, gameId: GameId, a: ClientId, b: ClientId)
    ensures gameId in OpenGames(games[gameId := NewGame(gameId, a)])
    ensures var g := WithJoiner(NewGame(gameId, a), b);
            gameId !in OpenGames(games[gameId := g])
  {
  }

  /** Only the entry for the changed game can enter or leave the open list. */
  lemma OpenGamesUpdate(games: map<GameId, Game>, gameId: GameId, g: Game)
    ensures forall id :: id != gameId ==> (id in OpenGames(games[gameId := g]) <==> id in OpenGames(games))
    ensures gameId in OpenGames(games[gameId := g]) <==> IsOpen(g)
  {
  }
}
