/** The game-state engine of the server: the `games` and `clients` tables and
    the handlers that change them. Each handler runs to completion before the
    next message is taken, so each is one method. Sends are appended to
    `outbox`; a send to an unregistered client would throw, so the handlers
    require that every client they send to is registered. */
module GameServer {
  import opened Rules
  import opened Ordering
  import opened Games
  import opened Protocol

  class Server {
    /** `games`: game id to game record. */
    var games: map<GameId, Game>
    /** `clients`: client id to that client's connection. */
    var clients: map<ClientId, Connection>
    /** Every message sent so far, in order. */
    var outbox: seq<Envelope>

    /** Each stored game sits under its own id and keeps its shape. */
    ghost predicate Valid()
      reads this`games
    {
      forall id :: id in games ==> games[id].gameId == id && WellFormed(games[id])
    }

    constructor ()
      ensures Valid()
      ensures games == map[] && clients == map[] && outbox == []
    {
      games := map[];
      clients := map[];
      outbox := [];
    }

    /** A new connection: register it under `clientId`, tell it its id, and
        send the open-game list to every registered client, itself included. */
    method Connect(clientId: ClientId, conn: Connection)
      requires Valid()
      modifies this`clients, this`outbox
      ensures Valid()
      ensures clients == old(clients)[clientId := conn]
      ensures unchanged(this`games)
      ensures outbox == old(outbox) + [Envelope(conn, Connected(clientId))]
                        + Broadcast(clients, GamesAvail(OpenGames(games)))
    {
      clients := clients[clientId := conn];
      outbox := outbox + [Envelope(conn, Connected(clientId))];
      assert Valid();
      SendAvailableGames();
    }

    /** A closed connection: remove its client id and re-send the open-game
        list to the clients still registered. Games are left as they are. */
    method Close(clientId: ClientId)
      requires Valid()
      modifies this`clients, this`outbox
      ensures Valid()
      ensures clients == old(clients) - {clientId}
      ensures unchanged(this`games)
      ensures outbox == old(outbox) + Broadcast(clients, GamesAvail(OpenGames(games)))
    {
      clients := clients - {clientId};
      SendAvailableGames();
    }

    /** What `handleClientMessage` needs in order not to throw: the game named
        exists, some player holds the turn on a move, and every client sent
        to is registered. */
    ghost predicate CanHandle(msg: Message)
      reads this
    {
      match msg
      case Create(c) => c in clients
      case Join(c, gid) => gid in games && c in clients && Reachable(clients, games[gid].players)
      case MakeMove(gid, _) =>
        gid in games && FindTurn(games[gid].players).Some? && Reachable(clients, games[gid].players)
      case Unknown(_) => true
    }

    /** `handleClientMessage`: route on the message's tag; an unknown tag
        changes nothing and sends nothing. `newGameId` is the id a create
        draws at random. */
    method HandleClientMessage(msg: Message, newGameId: GameId)
      requires Valid() && CanHandle(msg)
      modifies this`games, this`outbox
      ensures Valid()
      ensures unchanged(this`clients)
      ensures msg.Unknown? ==> games == old(games) && outbox == old(outbox)
      ensures msg.Create? ==>
        && games == old(games)[newGameId := NewGame(newGameId, msg.clientId)]
        && outbox == old(outbox) + [Envelope(clients[msg.clientId], Created(NewGame(newGameId, msg.clientId)))]
                     + Broadcast(clients, GamesAvail(OpenGames(games)))
      ensures msg.Join? ==>
        && games == old(games)[msg.gameId := WithJoiner(old(games)[msg.gameId], msg.clientId)]
        && outbox == old(outbox) + [Envelope(clients[msg.clientId], Joined(games[msg.gameId]))]
                     + ToPlayers(clients, games[msg.gameId].players, UpdateBoard(games[msg.gameId]))
      ensures msg.MakeMove? ==>
        var g := old(games)[msg.gameId];
        var o := Evaluate(msg.board, g.players[FindTurn(g.players).value].symbol);
        && games == old(games)[msg.gameId := if o.Continue? then Game(msg.gameId, Flipped(g.players), msg.board)
                                            else g.(board := msg.board)]
        && outbox == old(outbox) + ToPlayers(clients, games[msg.gameId].players, MoveNotice(o, games[msg.gameId]))
    {
      match msg
      case Create(c) =>
        HandleCreateGame(c, newGameId);
      case Join(c, gid) =>
        HandleJoinGame(c, gid);
      case MakeMove(gid, b) =>
        HandleMakeMove(gid, b);
      case Unknown(_) =>
    }

    /** `handleCreateGame`: store a one-player game under `gameId`, replacing
        any game already there, answer the creator, and send the open-game
        list to every client. */
    method HandleCreateGame(clientId: ClientId, gameId: GameId)
      requires Valid() && clientId in clients
      modifies this`games, this`outbox
      ensures Valid()
      ensures unchanged(this`clients)
      ensures games == old(games)[gameId := NewGame(gameId, clientId)]
      ensures outbox == old(outbox) + [Envelope(clients[clientId], Created(NewGame(gameId, clientId)))]
                        + Broadcast(clients, GamesAvail(OpenGames(games)))
    {
      var g := NewGame(gameId, clientId);
      NewGameShape(gameId, clientId);
      games := games[gameId := g];
      outbox := outbox + [Envelope(clients[clientId], Created(g))];
      assert Valid();
      SendAvailableGames();
    }

    /** `handleJoinGame`: append an 'o' player to the game, answer the joiner
        with the game, then send the board to all of the game's players. The
        open-game list is not re-sent. */
    method HandleJoinGame(clientId: ClientId, gameId: GameId)
      requires Valid() && gameId in games && clientId in clients
      requires Reachable(clients, games[gameId].players)
      modifies this`games, this`outbox
      ensures Valid()
      ensures unchanged(this`clients)
      ensures games == old(games)[gameId := WithJoiner(old(games)[gameId], clientId)]
      ensures outbox == old(outbox) + [Envelope(clients[clientId], Joined(games[gameId]))]
                        + ToPlayers(clients, games[gameId].players, UpdateBoard(games[gameId]))
    {
      JoinShape(games[gameId], clientId);
      var g := WithJoiner(games[gameId], clientId);
      games := games[gameId := g];
      outbox := outbox + [Envelope(clients[clientId], Joined(g))];
      SendBoard(g);
    }

    /** `handleMakeMove`: store the submitted board as it is, then judge it for
        the first player holding the turn. A win or a draw is announced to the
        players and nothing else changes; otherwise every turn flag is flipped
        and the new board is sent to the players. */
    method HandleMakeMove(gameId: GameId, board: Board)
      requires Valid() && gameId in games
      requires FindTurn(games[gameId].players).Some?
      requires Reachable(clients, games[gameId].players)
      modifies this`games, this`outbox
      ensures Valid()
      ensures unchanged(this`clients)
      ensures var g := old(games)[gameId];
              var mover := g.players[FindTurn(g.players).value].symbol;
              match Evaluate(board, mover)
              case Win(w) =>
                && games == old(games)[gameId := g.(board := board)]
                && outbox == old(outbox) + ToPlayers(clients, g.players, GameEnds(w))
              case Draw =>
                && games == old(games)[gameId := g.(board := board)]
                && outbox == old(outbox) + ToPlayers(clients, g.players, Drawn)
              case Continue =>
                && games == old(games)[gameId := Game(gameId, Flipped(g.players), board)]
                && outbox == old(outbox) + ToPlayers(clients, games[gameId].players, UpdateBoard(games[gameId]))
    {
      var g := games[gameId];
      g := g.(board := board);
      games := games[gameId := g];

      var mover := g.players[FindTurn(g.players).value].symbol;
      if IsWinner(g.board, mover) {
        SendToPlayers(g.players, GameEnds(mover));
        return;
      }
      if IsDraw(g.board) {
        SendToPlayers(g.players, Drawn);
        return;
      }

      FlipKeepsWellFormed(g);
      var flipped := FlipTurns(g.players);
      g := g.(players := flipped);
      games := games[gameId := g];
      SendBoard(g);
    }

    /** `makeMove(game)`: send the game's board to each of its players. */
    method SendBoard(g: Game)
      requires Reachable(clients, g.players)
      modifies this`outbox
      ensures outbox == old(outbox) + ToPlayers(clients, g.players, UpdateBoard(g))
    {
      SendToPlayers(g.players, UpdateBoard(g));
    }

    /** The `players.forEach(... send ...)` loops: one copy of `p` per player. */
    method SendToPlayers(ps: seq<Player>, p: Payload)
      requires Reachable(clients, ps)
      modifies this`outbox
      ensures outbox == old(outbox) + ToPlayers(clients, ps, p)
    {
      ghost var all := ToPlayers(clients, ps, p);
      var i := 0;
      while i < |ps|
        invariant 0 <= i <= |ps|
        invariant outbox == old(outbox) + all[..i]
      {
        outbox := outbox + [Envelope(clients[ps[i].clientId], p)];
        i := i + 1;
      }
    }

    /** `sendAvailableGames`: the open-game list to every registered client. */
    method SendAvailableGames()
      modifies this`outbox
      ensures outbox == old(outbox) + Broadcast(clients, GamesAvail(OpenGames(games)))
    {
      SendToAll(GamesAvail(OpenGames(games)));
    }

    /** The `Object.values(clients).forEach(... send ...)` loop, over the
        client ids in the order `Object.values` visits them. */
    method SendToAll(p: Payload)
      modifies this`outbox
      ensures outbox == old(outbox) + Broadcast(clients, p)
    {
      SendEach(Ascending(clients.Keys), p);
    }

    /** One send of `p` to each listed client, in list order. */
    method SendEach(ids: seq<ClientId>, p: Payload)
      requires forall id :: id in ids ==> id in clients
      modifies this`outbox
      ensures outbox == old(outbox) + Deliver(clients, ids, p)
    {
      ghost var all := Deliver(clients, ids, p);
      var i := 0;
      while i < |ids|
        invariant 0 <= i <= |ids|
        invariant outbox == old(outbox) + all[..i]
      {
        outbox := outbox + [Envelope(clients[ids[i]], p)];
        i := i + 1;
      }
    }
  }
}
