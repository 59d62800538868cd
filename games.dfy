/** The game records held in the server's `games` table: players, turn
    bookkeeping, and the record a create or a join produces. */
module Games {
  import opened Rules

  type GameId = nat
  type ClientId = nat

  datatype Option<T> = None | Some(value: T)

  /** A player as the server stores it. `wins` and `lost` are set to 0 and
      never updated by the server. */
  datatype Player = Player(clientId: ClientId, symbol: Mark, isTurn: bool, wins: nat, lost: nat)

  datatype Game = Game(gameId: GameId, players: seq<Player>, board: Board)

  /** The player record a create puts in a new game. */
  function Creator(clientId: ClientId): Player
  {
    Player(clientId, Cross, true, 0, 0)
  }

  /** The player record a join appends. */
  function Joiner(clientId: ClientId): Player
  {
    Player(clientId, Circle, false, 0, 0)
  }

  /** The game record `handleCreateGame` stores under `gameId`. */
  function NewGame(gameId: GameId, clientId: ClientId): Game
  {
    Game(gameId, [Creator(clientId)], EmptyBoard)
  }

  /** The game record after `handleJoinGame` pushes a player onto it; there is
      no check on how many players the game already has. */
  function WithJoiner(g: Game, clientId: ClientId): Game
  {
    g.(players := g.players + [Joiner(clientId)])
  }

  /** The shape every stored game keeps: the creator plays 'x', every later
      player 'o', and the counters stay at zero. */
  predicate WellFormed(g: Game)
  {
    && |g.players| >= 1
    && g.players[0].symbol == Cross
    && (forall i :: 1 <= i < |g.players| ==> g.players[i].symbol == Circle)
    && (forall i :: 0 <= i < |g.players| ==> g.players[i].wins == 0 && g.players[i].lost == 0)
  }

  /** `players.find(player => player.isTurn)`, as the index of the player found. */
  function FindTurn(ps: seq<Player>): (r: Option<nat>)
    ensures r.Some? ==> r.value < |ps| && ps[r.value].isTurn
    ensures r.Some? ==> forall j :: 0 <= j < r.value ==> !ps[j].isTurn
    ensures r.None? ==> forall j :: 0 <= j < |ps| ==> !ps[j].isTurn
  {
    if |ps| == 0 then None
    else if ps[0].isTurn then Some(0)
    else
      match FindTurn(ps[1..])
      case None => None
      case Some(i) => Some(i + 1)
  }

  /** Every player's `isTurn` negated, nothing else changed. */
  function Flipped(ps: seq<Player>): (r: seq<Player>)
  {
    seq(|ps|, i requires 0 <= i < |ps| => ps[i].(isTurn := !ps[i].isTurn))
  }

  /** The `forEach` loop of `handleMakeMove` that flips the turn flags. */
  method FlipTurns(ps: seq<Player>) returns (r: seq<Player>)
    ensures r == Flipped(ps)
  {
    r := [];
    var i := 0;
    while i < |ps|
      invariant 0 <= i <= |ps|
      invariant r == Flipped(ps)[..i]
    {
      r := r + [ps[i].(isTurn := !ps[i].isTurn)];
      i := i + 1;
    }
  }

  /** Flipping keeps the players, their order and their symbols, negates the
      turn flag of each, and flipping twice restores the list. */
  lemma FlipNegatesEachTurn(ps: seq<Player>)
    ensures |Flipped(ps)| == |ps|
    ensures forall i :: 0 <= i < |ps| ==>
      && Flipped(ps)[i].isTurn == !ps[i].isTurn
      && Flipped(ps)[i].clientId == ps[i].clientId
      && Flipped(ps)[i].symbol == ps[i].symbol
      && Flipped(ps)[i].wins == ps[i].wins
      && Flipped(ps)[i].lost == ps[i].lost
    ensures Flipped(Flipped(ps)) == ps
  {
  }

  /** With two players of which exactly one holds the turn, the flip hands the
      turn to the other one, and to nobody else. */
  lemma FlipAlternates(ps: seq<Player>)
    requires |ps| == 2
    requires ps[0].isTurn != ps[1].isTurn
    ensures FindTurn(ps).Some? && FindTurn(Flipped(ps)).Some?
    ensures FindTurn(Flipped(ps)).value == 1 - FindTurn(ps).value
    ensures Flipped(ps)[0].isTurn != Flipped(ps)[1].isTurn
  {
  }

  /** With more than two players the flip breaks the single-turn rule: after a
      third join, a non-terminal move leaves two players holding the turn. */
  lemma ThirdPlayerBreaksTurns(gameId: GameId, a: ClientId, b: ClientId, c: ClientId)
    ensures var g := WithJoiner(WithJoiner(NewGame(gameId, a), b), c);
            var f := Flipped(g.players);
            |f| == 3 && !f[0].isTurn && f[1].isTurn && f[2].isTurn
  {
  }

  /** A move on a game nobody has joined yet flips the creator's flag off;
      after a join no player holds the turn, so the next move finds no mover. */
  lemma SoloMoveStallsGame(gameId: GameId, a: ClientId, b: ClientId)
    ensures var g := NewGame(gameId, a);
            var moved := g.(players := Flipped(g.players));
            && FindTurn(moved.players).None?
            && FindTurn(WithJoiner(moved, b).players).None?
  {
  }

  /** The record a create stores: one player, 'x', on turn, zero counters, an
      empty board. */
  lemma NewGameShape(gameId: GameId, clientId: ClientId)
    ensures var g := NewGame(gameId, clientId);
      && g.gameId == gameId
      && |g.players| == 1
      && g.players[0].clientId == clientId && g.players[0].symbol == Cross
      && g.players[0].isTurn && g.players[0].wins == 0 && g.players[0].lost == 0
      && (forall i :: 0 <= i < 9 ==> g.board[i] == Empty)
      && FindTurn(g.players) == Some(0)
      && WellFormed(g)
  {
  }

  /** A join appends exactly one 'o' player without the turn; the board and
      the players already there are unchanged, and the shape is kept. */
  lemma JoinShape(g: Game, clientId: ClientId)
    ensures var j := WithJoiner(g, clientId);
      && j.gameId == g.gameId && j.board == g.board
      && |j.players| == |g.players| + 1
      && j.players[..|g.players|] == g.players
      && j.players[|g.players|].clientId == clientId
      && j.players[|g.players|].symbol == Circle
      && !j.players[|g.players|].isTurn
      && FindTurn(j.players) == FindTurn(g.players)
    ensures WellFormed(g) ==> WellFormed(WithJoiner(g, clientId))
  {
    FindTurnAppendIdle(g.players, Joiner(clientId));
  }

  lemma {:induction false} FindTurnAppendIdle(ps: seq<Player>, p: Player)
    requires !p.isTurn
    ensures FindTurn(ps + [p]) == FindTurn(ps)
  {
    if |ps| > 0 {
      assert (ps + [p])[1..] == ps[1..] + [p];
      FindTurnAppendIdle(ps[1..], p);
    } else {
      assert (ps + [p])[1..] == [];
    }
  }

  /** Create then join: the creator holds the turn; after one non-terminal move
      the joiner does. */
  lemma CreateJoinMoveTurns(gameId: GameId, a: ClientId, b: ClientId)
    ensures var g := WithJoiner(NewGame(gameId, a), b);
      && FindTurn(g.players) == Some(0)
      && FindTurn(Flipped(g.players)) == Some(1)
      && FindTurn(Flipped(Flipped(g.players))) == Some(0)
  {
  }

  /** The flip keeps the shape of a stored game. */
  lemma FlipKeepsWellFormed(g: Game)
    requires WellFormed(g)
    ensures WellFormed(g.(players := Flipped(g.players)))
  {
  }
}
