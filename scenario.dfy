/** A client of the server's contracts: two connections, a create, a join and
    two moves, followed only through what the handlers promise. */
module ServerScenario {
  import opened Rules
  import opened Games
  import opened Protocol
  import opened GameServer

  lemma OpeningMovesContinue(b1: Board, b2: Board)
    requires b1 == [X, Empty, Empty, Empty, Empty, Empty, Empty, Empty, Empty]
    requires b2 == [X, Empty, Empty, Empty, O, Empty, Empty, Empty, Empty]
    ensures Evaluate(b1, Cross) == Continue && Evaluate(b2, Circle) == Continue
  {
    assert !LineHas(b1, WinStates[0], O);
    assert !LineHas(b2, WinStates[0], O);
    WinnerIffThreeInARow(b1, Cross);
    WinnerIffThreeInARow(b2, Circle);
  }

  /** 'x' takes the top-left corner, 'o' the centre; the turn goes to 'o'
      and comes back to 'x'. */
  method PlayOpening(s: Server)
    requires s.Valid()
    requires s.clients == map[1 := Connection(10), 2 := Connection(20)]
    requires 7 in s.games && s.games[7] == WithJoiner(NewGame(7, 1), 2)
    modifies s
    ensures s.Valid() && 7 in s.games
    ensures s.games[7].board == [X, Empty, Empty, Empty, O, Empty, Empty, Empty, Empty]
    ensures FindTurn(s.games[7].players) == Some(0)
  {
    CreateJoinMoveTurns(7, 1, 2);
    var b1: Board := [X, Empty, Empty, Empty, Empty, Empty, Empty, Empty, Empty];
    var b2: Board := [X, Empty, Empty, Empty, O, Empty, Empty, Empty, Empty];
    OpeningMovesContinue(b1, b2);
    ghost var before := s.games[7];
    assert FindTurn(before.players) == Some(0) && before.players[0].symbol == Cross;
    s.HandleMakeMove(7, b1);
    assert s.games[7] == Game(7, Flipped(before.players), b1);
    assert FindTurn(s.games[7].players) == Some(1) && s.games[7].players[1].symbol == Circle;

    ghost var middle := s.games[7];
    s.HandleMakeMove(7, b2);
    assert s.games[7] == Game(7, Flipped(middle.players), b2);
    assert FindTurn(s.games[7].players) == Some(0);
  }

  /** Client 1 sends `create`; the game it gets is listed as open. */
  method CreateGame(s: Server)
    requires s.Valid()
    requires s.clients == map[1 := Connection(10), 2 := Connection(20)]
    modifies s
    ensures s.Valid() && s.clients == old(s.clients)
    ensures 7 in s.games && s.games[7] == NewGame(7, 1)
  {
    var create := Route("create", 1, 0, EmptyBoard);
    assert create == Create(1);
    s.HandleClientMessage(create, 7);
    assert 7 in OpenGames(s.games);
  }

  /** Client 2 sends `join` for game 7; the game is no longer listed. */
  method JoinGame(s: Server)
    requires s.Valid()
    requires s.clients == map[1 := Connection(10), 2 := Connection(20)]
    requires 7 in s.games && s.games[7] == NewGame(7, 1)
    modifies s
    ensures s.Valid() && s.clients == old(s.clients)
    ensures 7 in s.games && s.games[7] == WithJoiner(NewGame(7, 1), 2)
  {
    assert Reachable(s.clients, s.games[7].players);
    var join := Route("join", 2, 7, EmptyBoard);
    assert join == Join(2, 7);
    s.HandleClientMessage(join, 0);
    assert 7 !in OpenGames(s.games);
  }

  method CreateJoinAndPlay()
  {
    var s := new Server();
    s.Connect(1, Connection(10));
    s.Connect(2, Connection(20));
    assert s.clients == map[1 := Connection(10), 2 := Connection(20)];

    CreateGame(s);
    JoinGame(s);
    PlayOpening(s);

    // An unknown method changes nothing.
    ghost var g0, c0, o0 := s.games, s.clients, s.outbox;
    var chat := Route("chat", 0, 0, EmptyBoard);
    assert chat.Unknown?;
    s.HandleClientMessage(chat, 0);
    assert s.games == g0 && s.clients == c0 && s.outbox == o0;
  }
}
