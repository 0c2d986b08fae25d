/** The server's game coordination: the matchmaking queue, game-id
    allocation, the table of active games, the player-to-game table and
    rematch requests, changed by the ClientThread message cases, the turn
    timeout handlers and the bot's turn. Each handler returns the messages
    it writes, in order, instead of writing them to sockets. */
module Server {
  import opened Wire
  import opened Board
  import opened Game
  import opened Bot
  import opened Protocol

  /** How a handler ended. Disconnected: an exception (a number that does
      not parse, a missing field, a null game) sent the client thread to its
      disconnect handler before any table changed. Aborted: a timeout
      handler stopped on a null output stream. Expired: the client's game
      id names no active game (or, for REMATCH, a finished one). Waiting: a
      rematch request was recorded but the opponent has not asked yet. */
  datatype Outcome =
    | Done
    | Disconnected
    | NotInGame
    | NotYourTurn
    | InvalidMove
    | Won
    | Drawn
    | TurnPassed
    | BotToMove
    | Aborted
    | Expired
    | Waiting

  /** The lobby's tables, as a value. */
  datatype Tables = Tables(
    waitingPlayers: seq<int>,
    waitingPlayerTimers: map<int, int>,
    activeGames: map<int, Connect4Game>,
    rematchRequests: map<int, int>,
    playerToGameId: map<int, int>,
    gameIdCounter: int)

  /** The position of the first occurrence of x in s. */
  function FirstIndex(s: seq<int>, x: int): (i: int)
    requires x in s
    ensures 0 <= i < |s| && s[i] == x && x !in s[..i]
  {
    if s[0] == x then 0
    else
      var i := FirstIndex(s[1..], x) + 1;
      assert s[..i] == [s[0]] + s[1..][..i - 1];
      i
  }

  /** Queue.remove(Object): drops the first occurrence of x, if any. */
  function RemoveFirst(s: seq<int>, x: int): (r: seq<int>)
    ensures x !in s ==> r == s
    ensures x in s ==> r == s[..FirstIndex(s, x)] + s[FirstIndex(s, x) + 1..]
    ensures multiset(r) == multiset(s) - multiset{x}
  {
    if x in s then
      var i := FirstIndex(s, x);
      assert s == s[..i] + [s[i]] + s[i + 1..];
      s[..i] + s[i + 1..]
    else s
  }

  /** CANCEL_GAME_CREATION undoes a CREATE_GAME that queued a client not
      queued before: the queue is back as it was. */
  lemma CancelUndoesCreate(q: seq<int>, x: int)
    requires x !in q
    ensures RemoveFirst(q + [x], x) == q
  {
    var s := q + [x];
    assert forall j :: 0 <= j < |q| ==> s[j] == q[j] && q[j] in q;
    assert s[..|q|] == q;
  }

  /** The name REQUEST_GAMES shows for a waiting player. */
  function NameOf(names: map<int, string>, id: int): string
  {
    if id in names then names[id] else "Unknown Player"
  }

  /** One "Game by <name>" entry per queue entry, in queue order. */
  function GameEntries(waiting: seq<int>, names: map<int, string>): (entries: seq<string>)
    ensures |entries| == |waiting|
    ensures forall i :: 0 <= i < |waiting| ==> entries[i] == "Game by " + NameOf(names, waiting[i])
  {
    if |waiting| == 0 then []
    else GameEntries(waiting[..|waiting| - 1], names) + ["Game by " + NameOf(names, waiting[|waiting| - 1])]
  }

  /** The client's split(",") of GAMELIST gives the entries back when no
      name holds a comma and the queue is not empty. */
  lemma GameListRoundTrip(waiting: seq<int>, names: map<int, string>)
    requires |waiting| > 0
    requires forall i :: 0 <= i < |waiting| ==> Free(NameOf(names, waiting[i]), ',')
    ensures Split(Join(GameEntries(waiting, names), ','), ',') == GameEntries(waiting, names)
  {
    var entries := GameEntries(waiting, names);
    forall i | 0 <= i < |entries| ensures Free(entries[i], ',') {
      assert entries[i] == "Game by " + NameOf(names, waiting[i]);
    }
    SplitJoin(entries, ',');
  }

  /** With an empty queue, the client's list gets one empty entry. */
  lemma EmptyGameList(names: map<int, string>)
    ensures Split(Join(GameEntries([], names), ','), ',') == [""]
  {
  }

  /** new Connect4Game(), setTurnDuration(seconds) and setPlayers(p1, p2).
      The handlers call setPlayers after entering the game in the tables;
      nothing reads the game in between, so the order does not matter. */
  method NewGame(p1: int, p2: int, seconds: int) returns (game: Connect4Game)
    ensures fresh(game) && fresh(game.board) && game.Valid()
    ensures game.player1 == p1 && game.player2 == p2 && game.currentPlayer == p1
    ensures game.turnDurationSeconds == seconds
    ensures game.Cells() == EmptyGrid() && game.turnTimer == Disarmed
    ensures !game.gameFinished && game.consecutiveTimeouts == 0
  {
    game := new Connect4Game();
    game.SetTurnDuration(seconds);
    game.SetPlayers(p1, p2);
  }

  /** The difficulty and turn time of a CREATE_BOT_GAME payload: the first
      two comma-separated fields, both Integer.parseInt'ed; None when either
      is missing or does not parse. */
  function BotGameRequest(payload: string): (r: Option<(int, int)>)
    ensures r.Some? ==> IsInt32(r.value.0) && IsInt32(r.value.1)
    ensures r.Some? <==> |Split(payload, ',')| >= 2 && ParseInt(Split(payload, ',')[0]).Some?
                         && ParseInt(Split(payload, ',')[1]).Some?
  {
    var parts := Split(payload, ',');
    if |parts| == 0 || ParseInt(parts[0]).None? || |parts| < 2 || ParseInt(parts[1]).None? then None
    else Some((ParseInt(parts[0]).value, ParseInt(parts[1]).value))
  }

  /** The messages, in order, written to the stream of client id, if it
      has one among the connected ids. */
  function Deliver(connected: set<int>, id: int, msgs: seq<Message>): seq<Send>
  {
    if id in connected then SendAll(id, msgs) else []
  }

  /** The draw both timeout handlers announce after a second timeout in a row. */
  const InactivityDraw := Message(GameOver, "Game ended in a draw due to inactivity.")

  /** What a timeout that skips a turn writes: the player named by the
      timer is told it ran out of time and whose turn it is now; the new
      player to move, and the other player of the game if it is someone
      else, get the board and the turn. */
  function SkipNotices(connected: set<int>, timedOut: int, newTurn: int, other: int, board: string): seq<Send>
  {
    var turn := Message(Turn, ClientTag(newTurn));
    var update := Message(BoardUpdate, board);
    Deliver(connected, timedOut, [Message(Text, "You ran out of time. Turn skipped."), turn])
    + Deliver(connected, newTurn, [update, turn])
    + (if other in connected && other != newTurn then [Send(other, update), Send(other, turn)] else [])
  }

  class Lobby {
    /** The ids that have an output stream in clientOutputs. */
    const connected: set<int>
    var waitingPlayers: seq<int>
    var waitingPlayerTimers: map<int, int>
    var activeGames: map<int, Connect4Game>
    var rematchRequests: map<int, int>
    var playerToGameId: map<int, int>
    var gameIdCounter: int
    /** Every game this lobby created, active or not (timers of removed games still run). */
    ghost var Games: set<Connect4Game>
    ghost var Repr: set<object>

    function State(): Tables
      reads this
    {
      Tables(waitingPlayers, waitingPlayerTimers, activeGames, rematchRequests, playerToGameId, gameIdCounter)
    }

    /** Every game is valid and has its own board; the lobby itself is not
        part of what its games own. */
    ghost predicate GamesValid()
      reads this`Games, this`Repr, Repr
    {
      && this !in Repr
      && (forall g :: g in Games ==> g in Repr && g.board in Repr)
      && (forall g :: g in Games ==> g.Valid())
      && (forall g, h :: g in Games && h in Games && g != h ==> g.board != h.board)
    }

    /** The games are valid; active games are games of this lobby; every
        game id in the tables was handed out, so it is below the counter. */
    ghost predicate Valid()
      reads this`Games, this`Repr, this`activeGames, this`gameIdCounter, this`playerToGameId,
            this`rematchRequests, Repr
    {
      && GamesValid()
      && (forall id :: id in activeGames ==> activeGames[id] in Games && id < gameIdCounter)
      && (forall p :: p in playerToGameId ==> playerToGameId[p] < gameIdCounter)
      && (forall p :: p in rematchRequests ==> rematchRequests[p] < gameIdCounter)
    }

    /** The messages, in order, written to the stream of client id, if it has one. */
    function ToClient(id: int, msgs: seq<Message>): seq<Send>
      reads this
    {
      Deliver(connected, id, msgs)
    }

    /** A connected client's stream gets every message, in order, addressed
        to it; a client without a stream gets nothing. */
    lemma ToClientSends(id: int, msgs: seq<Message>)
      ensures |ToClient(id, msgs)| == if id in connected then |msgs| else 0
      ensures forall i :: 0 <= i < |ToClient(id, msgs)| ==> ToClient(id, msgs)[i] == Send(id, msgs[i])
    {
    }

    constructor (connected: set<int>)
      ensures Valid() && fresh(Repr)
      ensures this.connected == connected
      ensures State() == Tables([], map[], map[], map[], map[], 1)
    {
      this.connected := connected;
      waitingPlayers := [];
      waitingPlayerTimers := map[];
      activeGames := map[];
      rematchRequests := map[];
      playerToGameId := map[];
      gameIdCounter := 1;
      Games := {};
      Repr := {};
    }

    /** A new game between p1 and p2 (see NewGame), entered in activeGames
        under the next id. */
    method OpenGame(p1: int, p2: int, seconds: int) returns (game: Connect4Game, gameId: int)
      requires Valid()
      modifies this`activeGames, this`gameIdCounter, this`Games, this`Repr
      ensures Valid()
      ensures gameId == old(gameIdCounter) && gameId !in old(activeGames)
      ensures activeGames == old(activeGames)[gameId := game] && gameIdCounter == gameId + 1
      ensures fresh(game) && Games == old(Games) + {game} && Repr == old(Repr) + {game, game.board}
      ensures game.player1 == p1 && game.player2 == p2 && game.currentPlayer == p1
      ensures game.turnDurationSeconds == seconds
      ensures game.Cells() == EmptyGrid() && game.turnTimer == Disarmed
      ensures !game.gameFinished && game.consecutiveTimeouts == 0
    {
      game := NewGame(p1, p2, seconds);
      gameId := gameIdCounter;
      gameIdCounter := gameIdCounter + 1;
      activeGames := activeGames[gameId := game];
      Games := Games + {game};
      Repr := Repr + {game, game.board};
    }

    // -------------------------------------------------------------------
    // Queue cases

    /** CREATE_GAME "d,t": queue the client (again, if already queued) and
        record t as its turn time, overwriting any earlier one. */
    method CreateGame(count: int, payload: string) returns (outcome: Outcome, outbox: seq<Send>)
      requires Valid()
      modifies this`waitingPlayers, this`waitingPlayerTimers
      ensures Valid() && Games == old(Games) && Repr == old(Repr)
      ensures var parts := Split(payload, ',');
              if |parts| < 2 || ParseInt(parts[1]).None? then
                outcome == Disconnected && outbox == [] && State() == old(State())
              else
                && outcome == Done
                && State() == old(State()).(waitingPlayers := old(waitingPlayers) + [count],
                                            waitingPlayerTimers := old(waitingPlayerTimers)[count := ParseInt(parts[1]).value])
                && outbox == [Send(count, Message(Text, "Game created. Waiting for opponent..."))]
    {
      var parts := Split(payload, ',');
      if |parts| < 2 {
        return Disconnected, [];
      }
      var turnTime := ParseInt(parts[1]);
      if turnTime.None? {
        return Disconnected, [];
      }
      waitingPlayers := waitingPlayers + [count];
      waitingPlayerTimers := waitingPlayerTimers[count := turnTime.value];
      outcome := Done;
      outbox := [Send(count, Message(Text, "Game created. Waiting for opponent..."))];
    }

    /** REQUEST_GAMES: one "Game by <name>" per queue entry, in queue order,
        joined with commas; nothing changes. names maps client ids to user
        names (clients without one show as "Unknown Player"). */
    method RequestGames(count: int, names: map<int, string>) returns (outbox: seq<Send>)
      ensures outbox == [Send(count, Message(GameList, Join(GameEntries(waitingPlayers, names), ',')))]
    {
      var gameEntries: seq<string> := [];
      for i := 0 to |waitingPlayers|
        invariant gameEntries == GameEntries(waitingPlayers[..i], names)
      {
        var playerId := waitingPlayers[i];
        var username := if playerId in names then names[playerId] else "Unknown Player";
        assert waitingPlayers[..i + 1][..i] == waitingPlayers[..i];
        gameEntries := gameEntries + ["Game by " + username];
      }
      assert waitingPlayers[..|waitingPlayers|] == waitingPlayers;
      outbox := [Send(count, Message(GameList, Join(gameEntries, ',')))];
    }

    /** JOIN_GAME: the head of the queue hosts a new game against the
        joiner, with the host's recorded turn time (30 when none), and moves
        first. Nothing checks that the joiner is not the host. With an empty
        queue nothing changes. */
    method JoinGame(count: int) returns (outbox: seq<Send>)
      requires Valid()
      modifies this`waitingPlayers, this`waitingPlayerTimers, this`activeGames, this`gameIdCounter, this`Games, this`Repr, this`playerToGameId
      ensures Valid()
      ensures |old(waitingPlayers)| == 0 ==>
                && State() == old(State()) && Games == old(Games) && Repr == old(Repr)
                && outbox == [Send(count, Message(Text, "No games available to join right now."))]
      ensures |old(waitingPlayers)| > 0 ==>
                var host := old(waitingPlayers)[0];
                var gameId := old(gameIdCounter);
                && gameId in activeGames && gameId !in old(activeGames)
                && var game := activeGames[gameId];
                && fresh(game) && Games == old(Games) + {game}
                && State() == old(State()).(
                     waitingPlayers := old(waitingPlayers)[1..],
                     waitingPlayerTimers := old(waitingPlayerTimers) - {host},
                     activeGames := old(activeGames)[gameId := game],
                     playerToGameId := old(playerToGameId)[host := gameId][count := gameId],
                     gameIdCounter := gameId + 1)
                && game.player1 == host && game.player2 == count && game.currentPlayer == host
                && game.turnDurationSeconds == (if host in old(waitingPlayerTimers) then old(waitingPlayerTimers)[host] else 30)
                && game.Cells() == EmptyGrid() && game.turnTimer == Disarmed
                && !game.gameFinished && game.consecutiveTimeouts == 0
                && outbox == ToClient(host, [Message(GameStarted, ClientTag(count))])
                              + ToClient(count, [Message(GameStarted, ClientTag(host))])
                              + ToClient(host, [Message(Turn, ClientTag(host))])
    {
      if |waitingPlayers| == 0 {
        return [Send(count, Message(Text, "No games available to join right now."))];
      }
      var hostId := waitingPlayers[0];
      waitingPlayers := waitingPlayers[1..];
      var turnDuration := if hostId in waitingPlayerTimers then waitingPlayerTimers[hostId] else 30;
      waitingPlayerTimers := waitingPlayerTimers - {hostId};
      var game, gameId := OpenGame(hostId, count, turnDuration);
      playerToGameId := playerToGameId[hostId := gameId][count := gameId];
      outbox := ToClient(hostId, [Message(GameStarted, ClientTag(count))])
                + ToClient(count, [Message(GameStarted, ClientTag(hostId))])
                + ToClient(hostId, [Message(Turn, ClientTag(hostId))]);
    }

    /** CANCEL_GAME_CREATION: removes the client's first queue entry and
        says whether there was one; its recorded turn time stays behind. */
    method CancelGameCreation(count: int) returns (found: bool, outbox: seq<Send>)
      requires Valid()
      modifies this`waitingPlayers
      ensures Valid()
      ensures found == (count in old(waitingPlayers))
      ensures waitingPlayers == RemoveFirst(old(waitingPlayers), count)
      ensures found ==> outbox == [Send(count, Message(Text, "Game creation canceled."))]
      ensures !found ==> outbox == [Send(count, Message(Text, "You are not in the game creation queue."))]
    {
      found := count in waitingPlayers;
      waitingPlayers := RemoveFirst(waitingPlayers, count);
      if found {
        outbox := [Send(count, Message(Text, "Game creation canceled."))];
      } else {
        outbox := [Send(count, Message(Text, "You are not in the game creation queue."))];
      }
    }

    /** CREATE_BOT_GAME "d,t": a new game against bot -d with turn time t,
        the client moving first; the queue is not touched. A payload whose
        two numbers do not parse disconnects the client. */
    method CreateBotGame(count: int, payload: string) returns (outcome: Outcome, outbox: seq<Send>)
      requires Valid()
      modifies this`activeGames, this`gameIdCounter, this`Games, this`Repr, this`playerToGameId
      ensures Valid()
      ensures BotGameRequest(payload).None? ==>
                && outcome == Disconnected && outbox == []
                && State() == old(State()) && Games == old(Games) && Repr == old(Repr)
      ensures BotGameRequest(payload).Some? ==>
                var (difficulty, botTurnTime) := BotGameRequest(payload).value;
                var gameId := old(gameIdCounter);
                && outcome == Done
                && gameId in activeGames && gameId !in old(activeGames)
                && var game := activeGames[gameId];
                && fresh(game) && Games == old(Games) + {game}
                && State() == old(State()).(
                     activeGames := old(activeGames)[gameId := game],
                     playerToGameId := old(playerToGameId)[count := gameId],
                     gameIdCounter := gameId + 1)
                && game.player1 == count && game.player2 == Neg32(difficulty) && game.currentPlayer == count
                && game.turnDurationSeconds == botTurnTime
                && game.Cells() == EmptyGrid() && game.turnTimer == Disarmed && !game.gameFinished
                && outbox == [Send(count, Message(GameStarted, "BOT," + IntToString(botTurnTime))),
                              Send(count, Message(Turn, ClientTag(count)))]
    {
      var botParts := Split(payload, ',');
      if |botParts| == 0 {
        return Disconnected, [];
      }
      var difficulty := ParseInt(botParts[0]);
      if difficulty.None? || |botParts| < 2 {
        return Disconnected, [];
      }
      var botTurnTime := ParseInt(botParts[1]);
      if botTurnTime.None? {
        return Disconnected, [];
      }
      outbox := StartBotGame(count, difficulty.value, botTurnTime.value);
      outcome := Done;
    }

    /** The bot game CREATE_BOT_GAME opens once both numbers are read. */
    method StartBotGame(count: int, difficulty: int, botTurnTime: int) returns (outbox: seq<Send>)
      requires Valid() && IsInt32(difficulty)
      modifies this`activeGames, this`gameIdCounter, this`Games, this`Repr, this`playerToGameId
      ensures Valid()
      ensures var gameId := old(gameIdCounter);
              && gameId in activeGames && gameId !in old(activeGames)
              && var game := activeGames[gameId];
              && fresh(game) && Games == old(Games) + {game}
              && State() == old(State()).(
                   activeGames := old(activeGames)[gameId := game],
                   playerToGameId := old(playerToGameId)[count := gameId],
                   gameIdCounter := gameId + 1)
              && game.player1 == count && game.player2 == Neg32(difficulty) && game.currentPlayer == count
              && game.turnDurationSeconds == botTurnTime
              && game.Cells() == EmptyGrid() && game.turnTimer == Disarmed && !game.gameFinished
              && outbox == [Send(count, Message(GameStarted, "BOT," + IntToString(botTurnTime))),
                            Send(count, Message(Turn, ClientTag(count)))]
    {
      var gameBot, gameBotId := OpenGame(count, Neg32(difficulty), botTurnTime);
      playerToGameId := playerToGameId[count := gameBotId];
      outbox := [Send(count, Message(GameStarted, "BOT," + IntToString(botTurnTime))),
                 Send(count, Message(Turn, ClientTag(count)))];
    }

    // -------------------------------------------------------------------
    // MOVE and the bot's turn

    /** Changing one game of the lobby, and keeping it valid, keeps the lobby valid. */
    twostate lemma OnlyGameChanged(game: Connect4Game)
      requires old(Valid()) && unchanged(this) && game in Games && game.Valid()
      requires forall g :: g in Games && g != game ==> unchanged(g, g.board)
      ensures Valid()
    {
      forall g | g in Games
        ensures g.Valid()
      {
        if g != game {
          assert old(g.Valid());
        }
      }
    }

    /** The game a client is mapped to, with its board, when it is active. */
    function GameFootprint(count: int): set<object>
      reads this
    {
      if count in playerToGameId && playerToGameId[count] in activeGames
      then {activeGames[playerToGameId[count]], activeGames[playerToGameId[count]].board}
      else {}
    }

    /** MOVE "col": the sender must be mapped to an active game (otherwise
        nothing happens, or, for a missing game or a column that does not
        parse, the client is disconnected), must be the current player, and
        makeMove must accept the column. The turn timer is cancelled even for
        a refused column. An accepted move zeroes the timeout counter and
        sends the board; a win or draw is announced and ends the handler
        without switching the turn, finishing the game or removing it;
        otherwise the turn passes, to the bot (whose move is BotTurn) or to
        the opponent, whose countdown starts. */
    method Move(count: int, payload: string) returns (outcome: Outcome, outbox: seq<Send>)
      requires Valid()
      modifies GameFootprint(count)
      ensures Valid() && unchanged(this)
      ensures count !in playerToGameId ==> outcome == NotInGame && outbox == []
      ensures count in playerToGameId && (playerToGameId[count] !in activeGames || ParseInt(payload).None?) ==>
                outcome == Disconnected && outbox == []
      ensures outcome in {NotInGame, Disconnected, NotYourTurn} ==> unchanged(GameFootprint(count))
      ensures count in playerToGameId && playerToGameId[count] in activeGames && ParseInt(payload).Some? ==>
                var gameId := playerToGameId[count];
                var game := activeGames[gameId];
                var column := ParseInt(payload).value;
                && game.player1 == old(game.player1) && game.player2 == old(game.player2)
                && game.gameFinished == old(game.gameFinished)
                && game.turnDurationSeconds == old(game.turnDurationSeconds)
                && game.gameInProgress == old(game.gameInProgress)
                && (old(game.currentPlayer) != count ==> outcome == NotYourTurn && outbox == [])
                && (old(game.currentPlayer) == count && !Accepts(old(game.Cells()), game.gameFinished, column) ==>
                      && outcome == InvalidMove && outbox == []
                      && game.Cells() == old(game.Cells()) && game.currentPlayer == count
                      && game.consecutiveTimeouts == old(game.consecutiveTimeouts)
                      && game.turnTimer == Disarmed)
                && (old(game.currentPlayer) == count && Accepts(old(game.Cells()), game.gameFinished, column) ==>
                      && game.Cells() == Drop(old(game.Cells()), column, Marker(game.player1, count))
                      && AcceptedMove(game, gameId, count, outcome, outbox))
    {
      if count !in playerToGameId {
        return NotInGame, [];
      }
      var gameId := playerToGameId[count];
      var column := ParseInt(payload);
      if column.None? || gameId !in activeGames {
        return Disconnected, [];
      }
      var game := activeGames[gameId];
      outcome, outbox := PlayMove(game, gameId, count, column.value);
      OnlyGameChanged(game);
    }

    /** MOVE once the sender's game and column are known. */
    method PlayMove(game: Connect4Game, gameId: int, count: int, column: int) returns (outcome: Outcome, outbox: seq<Send>)
      requires game.Valid()
      modifies game, game.board
      ensures game.Valid()
      ensures game.player1 == old(game.player1) && game.player2 == old(game.player2)
      ensures game.gameFinished == old(game.gameFinished)
      ensures game.turnDurationSeconds == old(game.turnDurationSeconds)
      ensures game.gameInProgress == old(game.gameInProgress)
      ensures outcome == NotYourTurn ==> unchanged(game, game.board)
      ensures old(game.currentPlayer) != count ==> outcome == NotYourTurn && outbox == []
      ensures old(game.currentPlayer) == count && !Accepts(old(game.Cells()), game.gameFinished, column) ==>
                && outcome == InvalidMove && outbox == []
                && game.Cells() == old(game.Cells()) && game.currentPlayer == count
                && game.consecutiveTimeouts == old(game.consecutiveTimeouts)
                && game.turnTimer == Disarmed
      ensures old(game.currentPlayer) == count && Accepts(old(game.Cells()), game.gameFinished, column) ==>
                AcceptedMove(game, gameId, count, outcome, outbox)
                && game.Cells() == Drop(old(game.Cells()), column, Marker(game.player1, count))
    {
      if game.currentPlayer != count {
        return NotYourTurn, [];
      }
      outcome, outbox := TakeTurn(game, gameId, count, column);
    }

    /** MOVE from the current player: drop the disc, cancel the countdown
        whatever the outcome, and go on only when the column was accepted. */
    method TakeTurn(game: Connect4Game, gameId: int, count: int, column: int) returns (outcome: Outcome, outbox: seq<Send>)
      requires game.Valid() && game.currentPlayer == count
      modifies game.board, game`consecutiveTimeouts, game`currentPlayer, game`turnTimer
      ensures game.Valid()
      ensures game.player1 == old(game.player1) && game.player2 == old(game.player2)
      ensures game.gameFinished == old(game.gameFinished)
      ensures game.turnDurationSeconds == old(game.turnDurationSeconds)
      ensures game.gameInProgress == old(game.gameInProgress)
      ensures !Accepts(old(game.Cells()), game.gameFinished, column) ==>
                && outcome == InvalidMove && outbox == []
                && game.Cells() == old(game.Cells()) && game.currentPlayer == count
                && game.consecutiveTimeouts == old(game.consecutiveTimeouts)
                && game.turnTimer == Disarmed
      ensures Accepts(old(game.Cells()), game.gameFinished, column) ==>
                && game.Cells() == Drop(old(game.Cells()), column, Marker(game.player1, count))
                && AcceptedMove(game, gameId, count, outcome, outbox)
    {
      ghost var before := game.Cells();
      var valid := game.MakeMove(column, count);
      ghost var dropped := game.Cells();
      assert valid == Accepts(before, game.gameFinished, column);
      game.CancelTurnTimer();
      if !valid {
        return InvalidMove, [];
      }
      assert dropped == Drop(before, column, Marker(game.player1, count));
      outcome, outbox := Conclude(game, gameId, count);
    }

    /** What MOVE leaves behind once a column was accepted: the timeout
        counter zeroed, and exactly these messages in this order: the board
        to the mover, the updates of MoveUpdates, then the result. */
    ghost predicate AcceptedMove(game: Connect4Game, gameId: int, count: int, outcome: Outcome, outbox: seq<Send>)
      requires game.Valid()
      reads this, game, game.board
    {
      var boardUpdate := Message(BoardUpdate, BoardString(game.Cells()));
      var updates := [Send(count, boardUpdate)] + MoveUpdates(game, count, boardUpdate);
      && game.consecutiveTimeouts == 0
      && |updates| <= |outbox| && outbox[..|updates|] == updates
      && MoveResult(game, gameId, count, outcome, outbox[|updates|..])
    }

    /** The result of an accepted move and exactly the messages that end
        it: a win or a draw announced to the mover and, in a human game, to
        the opponent, with the turn kept and no countdown; otherwise the
        turn passed to the other player, silently to the bot, or with TURN
        to both players and the countdown of the player to move started in
        a human game. */
    ghost predicate MoveResult(game: Connect4Game, gameId: int, count: int, outcome: Outcome, sent: seq<Send>)
      requires game.Valid()
      reads this, game, game.board
    {
      var isBotGame := game.player2 < 0;
      var opponent := if isBotGame then -1 else OtherOf(game.player1, game.player2, count);
      && (outcome == Won <==> HasFour(game.Cells()))
      && (outcome == Drawn <==> !HasFour(game.Cells()) && IsDraw(game.Cells()))
      && (outcome in {Won, Drawn} ==> game.currentPlayer == count && game.turnTimer == Disarmed)
      && (outcome == Won && !isBotGame ==>
            sent == [Send(count, Message(GameOver, "You win!"))]
                    + ToClient(opponent, [Message(GameOver, if opponent == count then "You win!" else "You lose!")]))
      && (outcome == Won && isBotGame ==>
            sent == [Send(count, Message(GameOver, if WinnerOf(game.Cells()) == 1 then "You win!" else "You lose!"))])
      && (outcome == Drawn ==>
            sent == [Send(count, Message(GameOver, "Draw!"))]
                    + (if isBotGame then [] else ToClient(opponent, [Message(GameOver, "Draw!")])))
      && (outcome !in {Won, Drawn} ==>
            && game.currentPlayer == OtherOf(game.player1, game.player2, count)
            && (isBotGame ==> outcome == BotToMove && game.turnTimer == Disarmed && sent == [])
            && (!isBotGame ==>
                  && outcome == TurnPassed
                  && sent == TurnNotices(game.currentPlayer, OtherOf(game.player1, game.player2, game.currentPlayer))
                  && game.turnTimer == Armed(game.turnDurationSeconds,
                       InlineTimeout(game.currentPlayer, gameId, count, opponent))))
    }

    /** After an accepted move, while the mover still holds the turn: in a
        human game, TIMER_UPDATE with the turn duration to the opponent,
        then the board to the opponent and to the mover; in a bot game, the
        board to the mover again. */
    function MoveUpdates(game: Connect4Game, count: int, update: Message): seq<Send>
      reads this, game`player1, game`player2, game`turnDurationSeconds
    {
      var opponent := OtherOf(game.player1, game.player2, count);
      if game.player2 >= 0 then
        ToClient(opponent, [Message(TimerUpdate, IntToString(game.turnDurationSeconds))])
        + ToClient(opponent, [update]) + ToClient(count, [update])
      else ToClient(count, [update])
    }

    /** TURN naming the player to move, to that player and to the other
        one when the other is connected and a different client. */
    function TurnNotices(next: int, other: int): seq<Send>
      reads this
    {
      var turnMessage := Message(Turn, ClientTag(next));
      ToClient(next, [turnMessage]) + (if other in connected && other != next then [Send(other, turnMessage)] else [])
    }

    /** The rest of MOVE after an accepted drop: zero the timeout counter,
        send the board, then announce the result or pass the turn. */
    method Conclude(game: Connect4Game, gameId: int, count: int) returns (outcome: Outcome, outbox: seq<Send>)
      requires game.Valid() && game.currentPlayer == count && game.turnTimer == Disarmed
      modifies game`consecutiveTimeouts, game`currentPlayer, game`turnTimer
      ensures game.Valid()
      ensures AcceptedMove(game, gameId, count, outcome, outbox)
    {
      game.ResetTimeouts();
      var boardString := game.GetBoardString();
      var boardUpdateMessage := Message(BoardUpdate, boardString);
      var updates := BoardUpdates(game, count, boardUpdateMessage);
      var rest;
      outcome, rest := AnnounceOrPass(game, gameId, count);
      outbox := updates + rest;
      AcceptedMoveOf(game, gameId, count, outcome, updates, rest);
    }

    /** The board to the mover, then the updates of MoveUpdates, computed
        as the handler does, with a branch for the mover that is never taken
        because the turn has not switched yet. */
    method BoardUpdates(game: Connect4Game, count: int, boardUpdateMessage: Message) returns (updates: seq<Send>)
      requires game.currentPlayer == count
      ensures updates == [Send(count, boardUpdateMessage)] + MoveUpdates(game, count, boardUpdateMessage)
    {
      var isBotGame := game.player2 < 0;
      var opponent := if isBotGame then -1 else game.GetOtherPlayer(count);
      var timerUpdate := Message(TimerUpdate, IntToString(game.turnDurationSeconds));
      updates := [Send(count, boardUpdateMessage)];
      if !isBotGame {
        if game.currentPlayer == count {
          updates := updates + ToClient(opponent, [timerUpdate]);
        } else {
          updates := updates + ToClient(count, [timerUpdate]);
        }
        updates := updates + ToClient(opponent, [boardUpdateMessage]) + ToClient(count, [boardUpdateMessage]);
      } else {
        updates := updates + ToClient(count, [boardUpdateMessage]);
      }
    }

    /** The board messages followed by a move's result make an accepted move. */
    lemma AcceptedMoveOf(game: Connect4Game, gameId: int, count: int, outcome: Outcome, updates: seq<Send>, rest: seq<Send>)
      requires game.Valid() && game.consecutiveTimeouts == 0
      requires var boardUpdate := Message(BoardUpdate, BoardString(game.Cells()));
               updates == [Send(count, boardUpdate)] + MoveUpdates(game, count, boardUpdate)
      requires MoveResult(game, gameId, count, outcome, rest)
      ensures AcceptedMove(game, gameId, count, outcome, updates + rest)
    {
      assert (updates + rest)[..|updates|] == updates;
      assert (updates + rest)[|updates|..] == rest;
    }

    /** A win or a draw is announced to the mover and, in a human game, to
        the opponent, and the handler stops there; otherwise the turn
        switches, and in a human game TURN goes to both players and the
        countdown of the player to move starts. */
    method AnnounceOrPass(game: Connect4Game, gameId: int, count: int) returns (outcome: Outcome, outbox: seq<Send>)
      requires game.Valid() && game.currentPlayer == count && game.turnTimer == Disarmed
      modifies game`currentPlayer, game`turnTimer
      ensures game.Valid()
      ensures MoveResult(game, gameId, count, outcome, outbox)
    {
      var isBotGame := game.player2 < 0;
      var opponent := if isBotGame then -1 else game.GetOtherPlayer(count);
      var won := game.CheckWinner();
      if won {
        var resultMessage := if isBotGame then (if WinnerOf(game.Cells()) == 1 then "You win!" else "You lose!")
                             else (if game.currentPlayer == count then "You win!" else "You lose!");
        outbox := [Send(count, Message(GameOver, resultMessage))];
        if !isBotGame {
          outbox := outbox + ToClient(opponent, [Message(GameOver, if game.currentPlayer == opponent then "You win!" else "You lose!")]);
        }
        return Won, outbox;
      }
      if IsDraw(game.Cells()) {
        outbox := [Send(count, Message(GameOver, "Draw!"))];
        if !isBotGame {
          outbox := outbox + ToClient(opponent, [Message(GameOver, "Draw!")]);
        }
        return Drawn, outbox;
      }
      game.SwitchTurn();
      var nextPlayer := game.currentPlayer;
      if isBotGame {
        return BotToMove, [];
      }
      outbox := TurnNotices(nextPlayer, game.GetOtherPlayer(nextPlayer));
      game.StartTurnTimer(InlineTimeout(nextPlayer, gameId, count, opponent));
      outcome := TurnPassed;
    }

    /** The bot thread MOVE starts, from the lobby's side: only the bot
        game changes, so the lobby stays valid. */
    method BotThread(game: Connect4Game, human: int, gameId: int, draw: real) returns (botColumn: int, outbox: seq<Send>)
      requires Valid() && game in Games && 0.0 <= draw < 1.0
      modifies game.board, game`currentPlayer, game`turnTimer
      ensures Valid() && unchanged(this)
      ensures game.player1 == old(game.player1) && game.player2 == old(game.player2)
      ensures game.gameFinished == old(game.gameFinished) && game.turnDurationSeconds == old(game.turnDurationSeconds)
      ensures game.consecutiveTimeouts == old(game.consecutiveTimeouts) && game.gameInProgress == old(game.gameInProgress)
      ensures botColumn == BotChoice(old(game.Snapshot()), -game.player2, draw)
      ensures botColumn == -1 ==> outbox == [] && unchanged(game, game.board)
      ensures botColumn != -1 ==>
                BotPlayed(game, human, gameId, botColumn, old(game.Cells()), old(game.currentPlayer), old(game.turnTimer), outbox)
    {
      botColumn, outbox := BotTurn(game, human, gameId, draw);
      OnlyGameChanged(game);
    }

    // -------------------------------------------------------------------
    // Leaving a game and rematches

    /** RETURN_TO_LOBBY: when the client is mapped to an active game, that
        game is marked finished and removed, the client and the game's
        other player are unmapped, and the other player is told. The
        countdown is not cancelled. Otherwise nothing changes (the server
        only logs). */
    method ReturnToLobby(count: int) returns (outcome: Outcome, outbox: seq<Send>)
      requires Valid()
      modifies this`activeGames, this`playerToGameId, GameFootprint(count)
      ensures Valid() && Games == old(Games) && Repr == old(Repr)
      ensures count !in old(playerToGameId) ==>
                outcome == NotInGame && outbox == [] && State() == old(State())
      ensures count in old(playerToGameId) && old(playerToGameId)[count] !in old(activeGames) ==>
                outcome == Expired && outbox == [] && State() == old(State())
      ensures count in old(playerToGameId) && old(playerToGameId)[count] in old(activeGames) ==>
                var gameId := old(playerToGameId)[count];
                var game := old(activeGames)[gameId];
                var opponentId := OtherOf(game.player1, game.player2, count);
                && outcome == Done
                && game.gameFinished
                && game.player1 == old(game.player1) && game.player2 == old(game.player2)
                && game.currentPlayer == old(game.currentPlayer) && game.turnTimer == old(game.turnTimer)
                && game.consecutiveTimeouts == old(game.consecutiveTimeouts) && unchanged(game.board)
                && game.turnDurationSeconds == old(game.turnDurationSeconds)
                && game.initialStartingPlayer == old(game.initialStartingPlayer)
                && game.gameInProgress == old(game.gameInProgress)
                && State() == old(State()).(activeGames := old(activeGames) - {gameId},
                                            playerToGameId := old(playerToGameId) - {count, opponentId})
                && outbox == ToClient(opponentId, [Message(Text, "Your opponent returned to the lobby.")])
    {
      if count !in playerToGameId {
        return NotInGame, [];
      }
      var returnGameId := playerToGameId[count];
      if returnGameId !in activeGames {
        return Expired, [];
      }
      var returnGame := activeGames[returnGameId];
      returnGame.SetGameFinished(true);
      var opponentId := returnGame.GetOtherPlayer(count);
      outbox := ToClient(opponentId, [Message(Text, "Your opponent returned to the lobby.")]);
      activeGames := activeGames - {returnGameId};
      playerToGameId := playerToGameId - {count} - {opponentId};
      outcome := Done;
    }

    /** REMATCH: refused, with nothing changed, unless the client is mapped
        to an active game that is not finished. Against a bot a new bot
        game with the same turn time starts at once. Against a human the
        request is recorded under the old game's id, and a new game (turn
        time 30, the requester moving first) starts only when the other
        player has a request recorded for the same game. The old game stays
        in activeGames. */
    method Rematch(count: int) returns (outcome: Outcome, outbox: seq<Send>)
      requires Valid()
      modifies this`activeGames, this`gameIdCounter, this`Games, this`Repr, this`playerToGameId, this`rematchRequests
      ensures Valid()
      ensures count !in old(playerToGameId) ==>
                outcome == NotInGame && outbox == [] && State() == old(State()) && Games == old(Games)
      ensures count in old(playerToGameId) && (old(playerToGameId)[count] !in old(activeGames)
                || old(activeGames)[old(playerToGameId)[count]].gameFinished) ==>
                outcome == Expired && outbox == [] && State() == old(State()) && Games == old(Games)
      ensures count in old(playerToGameId) && old(playerToGameId)[count] in old(activeGames)
              && !old(activeGames)[old(playerToGameId)[count]].gameFinished ==>
                var lastGameId := old(playerToGameId)[count];
                var lastGame := old(activeGames)[lastGameId];
                var opponent := OtherOf(lastGame.player1, lastGame.player2, count);
                RematchResult(count, opponent, lastGameId, lastGame.turnDurationSeconds,
                              old(State()), old(Games), outcome, outbox)
    {
      if count !in playerToGameId {
        return NotInGame, [];
      }
      var lastGameId := playerToGameId[count];
      if lastGameId !in activeGames || activeGames[lastGameId].gameFinished {
        return Expired, [];
      }
      var lastGame := activeGames[lastGameId];
      var opponent := lastGame.GetOtherPlayer(count);
      if opponent < 0 {
        outbox := BotRematch(count, opponent, lastGame.turnDurationSeconds);
        return Done, outbox;
      }
      outcome, outbox := HumanRematch(count, opponent, lastGameId);
    }

    /** What a REMATCH from count, whose game lastGameId against opponent
        is active and not finished, leaves behind, given the tables and
        games before it. */
    ghost predicate RematchResult(count: int, opponent: int, lastGameId: int, lastDuration: int,
                                  before: Tables, gamesBefore: set<Connect4Game>, outcome: Outcome, outbox: seq<Send>)
      reads this, Repr
    {
      if opponent < 0 then outcome == Done && BotRematchResult(count, opponent, lastDuration, before, gamesBefore, outbox)
      else HumanRematchResult(count, opponent, lastGameId, before, gamesBefore, outcome, outbox)
    }

    /** A rematch against bot opponent: a new game with the old turn time
        under the next id, the client mapped to it. */
    ghost predicate BotRematchResult(count: int, opponent: int, lastDuration: int,
                                     before: Tables, gamesBefore: set<Connect4Game>, outbox: seq<Send>)
      reads this, Repr
    {
      var newId := before.gameIdCounter;
      && NewGameEntered(newId, count, opponent, lastDuration, gamesBefore)
      && State() == before.(activeGames := before.activeGames[newId := activeGames[newId]],
                            playerToGameId := before.playerToGameId[count := newId],
                            gameIdCounter := newId + 1)
      && outbox == ToClient(count, [Message(GameStarted, "BOT," + IntToString(lastDuration)),
                                    Message(Turn, ClientTag(count))])
    }

    /** A rematch request against a human: recorded; when the opponent's
        recorded request names the same game, a new game (turn time 30)
        under the next id, both players mapped to it, both requests
        cleared, the requester moving first. */
    ghost predicate HumanRematchResult(count: int, opponent: int, lastGameId: int,
                                       before: Tables, gamesBefore: set<Connect4Game>, outcome: Outcome, outbox: seq<Send>)
      reads this, Repr
    {
      var newId := before.gameIdCounter;
      var requests := before.rematchRequests[count := lastGameId];
      if opponent in requests && requests[opponent] == lastGameId then
        && outcome == Done
        && NewGameEntered(newId, count, opponent, 30, gamesBefore)
        && State() == before.(activeGames := before.activeGames[newId := activeGames[newId]],
                              playerToGameId := before.playerToGameId[count := newId][opponent := newId],
                              rematchRequests := requests - {count, opponent},
                              gameIdCounter := newId + 1)
        && outbox == ToClient(count, [Message(GameStarted, ClientTag(count))])
                     + ToClient(opponent, [Message(GameStarted, ClientTag(opponent))])
                     + ToClient(count, [Message(Turn, ClientTag(count))])
      else
        && outcome == Waiting && outbox == [] && Games == gamesBefore
        && State() == before.(rematchRequests := requests)
    }

    /** Game newId is a new game between p1 and p2 with the given turn
        time, fresh from its constructor, p1 to move. */
    ghost predicate NewGameEntered(newId: int, p1: int, p2: int, seconds: int, gamesBefore: set<Connect4Game>)
      reads this, Repr
    {
      && newId in activeGames && activeGames[newId] !in gamesBefore
      && var game := activeGames[newId];
      && Games == gamesBefore + {game} && game in Repr && game.board in Repr && game.Valid()
      && game.player1 == p1 && game.player2 == p2 && game.currentPlayer == p1
      && game.turnDurationSeconds == seconds
      && game.Cells() == EmptyGrid() && game.turnTimer == Disarmed
      && !game.gameFinished && game.consecutiveTimeouts == 0
    }

    /** REMATCH against a bot: the new game starts at once. */
    method BotRematch(count: int, opponent: int, lastDuration: int) returns (outbox: seq<Send>)
      requires Valid()
      modifies this`activeGames, this`gameIdCounter, this`Games, this`Repr, this`playerToGameId
      ensures Valid()
      ensures BotRematchResult(count, opponent, lastDuration, old(State()), old(Games), outbox)
    {
      var newBotGame, newBotGameId := OpenGame(count, opponent, lastDuration);
      playerToGameId := playerToGameId[count := newBotGameId];
      outbox := ToClient(count, [Message(GameStarted, "BOT," + IntToString(newBotGame.turnDurationSeconds)),
                                 Message(Turn, ClientTag(count))]);
    }

    /** REMATCH against a human: record the request and pair it with the
        opponent's, if that names the same game. */
    method HumanRematch(count: int, opponent: int, lastGameId: int) returns (outcome: Outcome, outbox: seq<Send>)
      requires Valid() && lastGameId in activeGames
      modifies this`activeGames, this`gameIdCounter, this`Games, this`Repr, this`playerToGameId, this`rematchRequests
      ensures Valid()
      ensures HumanRematchResult(count, opponent, lastGameId, old(State()), old(Games), outcome, outbox)
    {
      rematchRequests := rematchRequests[count := lastGameId];
      if !(opponent in rematchRequests && rematchRequests[opponent] == lastGameId) {
        return Waiting, [];
      }
      outbox := StartRematch(count, opponent);
      outcome := Done;
    }

    /** Both players asked: a new game with count moving first, both
        mapped to it, both requests cleared. */
    method StartRematch(count: int, opponent: int) returns (outbox: seq<Send>)
      requires Valid()
      modifies this`activeGames, this`gameIdCounter, this`Games, this`Repr, this`playerToGameId, this`rematchRequests
      ensures Valid()
      ensures var newId := old(gameIdCounter);
              && NewGameEntered(newId, count, opponent, 30, old(Games))
              && State() == old(State()).(activeGames := old(activeGames)[newId := activeGames[newId]],
                                          playerToGameId := old(playerToGameId)[count := newId][opponent := newId],
                                          rematchRequests := old(rematchRequests) - {count, opponent},
                                          gameIdCounter := newId + 1)
              && outbox == ToClient(count, [Message(GameStarted, ClientTag(count))])
                           + ToClient(opponent, [Message(GameStarted, ClientTag(opponent))])
                           + ToClient(count, [Message(Turn, ClientTag(count))])
    {
      var newGame, newGameId := OpenGame(count, opponent, 30);
      playerToGameId := playerToGameId[count := newGameId][opponent := newGameId];
      rematchRequests := rematchRequests - {count} - {opponent};
      var startingPlayer := newGame.currentPlayer;
      outbox := ToClient(count, [Message(GameStarted, ClientTag(count))])
                + ToClient(opponent, [Message(GameStarted, ClientTag(opponent))])
                + ToClient(startingPlayer, [Message(Turn, ClientTag(startingPlayer))]);
    }

    // -------------------------------------------------------------------
    // Turn timeouts

    /** handleTurnTimeout(game, nextPlayer, gameId), run when a countdown
        armed with it fires: the timeout counter goes up; at two in a row
        both players get the inactivity draw and the game leaves
        activeGames (its players stay mapped to it and no countdown is
        armed); otherwise the turn passes and a countdown for the new
        player to move starts. */
    method TurnTimeout(game: Connect4Game, nextPlayer: int, gameId: int) returns (outcome: Outcome, outbox: seq<Send>)
      requires Valid() && game in Games
      modifies this`activeGames, game`consecutiveTimeouts, game`currentPlayer, game`turnTimer
      ensures Valid()
      ensures game.consecutiveTimeouts == old(game.consecutiveTimeouts) + 1
      ensures game.consecutiveTimeouts >= 2 ==>
                && outcome == Drawn && activeGames == old(activeGames) - {gameId}
                && game.currentPlayer == old(game.currentPlayer) && game.turnTimer == old(game.turnTimer)
                && outbox == ToClient(game.currentPlayer, [InactivityDraw])
                              + ToClient(OtherOf(game.player1, game.player2, game.currentPlayer), [InactivityDraw])
      ensures game.consecutiveTimeouts < 2 ==>
                && outcome == TurnPassed && activeGames == old(activeGames)
                && game.currentPlayer == OtherOf(game.player1, game.player2, old(game.currentPlayer))
                && game.turnTimer == Armed(game.turnDurationSeconds, OnTimeout.HandleTurnTimeout(game.currentPlayer, gameId))
                && outbox == SkipNotices(connected, nextPlayer, game.currentPlayer,
                                         OtherOf(game.player1, game.player2, game.currentPlayer), BoardString(game.Cells()))
    {
      outcome, outbox := TimeoutOnGame(game, connected, nextPlayer, gameId);
      OnlyGameChanged(game);
      if outcome == Drawn {
        activeGames := activeGames - {gameId};
      }
    }

    /** The copy of handleTurnTimeout written inline in MOVE, run when a
        countdown armed by MOVE fires. It differs from handleTurnTimeout in
        three ways: the draw goes to the current player and to the other
        player of nextPlayer; after the turn passes, a TIMER_UPDATE goes to
        the mover of the move that armed it, when that mover is to play
        again, and to that move's opponent otherwise, and a missing stream
        there ends the handler with a NullPointerException (Aborted); and the
        countdown it re-arms calls handleTurnTimeout with nextPlayer, the
        player who just timed out. */
    method InlineTurnTimeout(game: Connect4Game, nextPlayer: int, gameId: int, mover: int, opponent: int)
      returns (outcome: Outcome, outbox: seq<Send>)
      requires Valid() && game in Games
      modifies this`activeGames, game`consecutiveTimeouts, game`currentPlayer, game`turnTimer
      ensures Valid()
      ensures game.consecutiveTimeouts == old(game.consecutiveTimeouts) + 1
      ensures game.consecutiveTimeouts >= 2 ==>
                && outcome == Drawn && activeGames == old(activeGames) - {gameId}
                && game.currentPlayer == old(game.currentPlayer) && game.turnTimer == old(game.turnTimer)
                && outbox == ToClient(game.currentPlayer, [InactivityDraw])
                              + ToClient(OtherOf(game.player1, game.player2, nextPlayer), [InactivityDraw])
      ensures game.consecutiveTimeouts < 2 ==>
                && activeGames == old(activeGames)
                && game.currentPlayer == OtherOf(game.player1, game.player2, old(game.currentPlayer))
                && InlineSkip(game, connected, nextPlayer, gameId, mover, opponent, old(game.turnTimer), outcome, outbox)
    {
      outcome, outbox := InlineTimeoutOnGame(game, connected, nextPlayer, gameId, mover, opponent);
      OnlyGameChanged(game);
      if outcome == Drawn {
        activeGames := activeGames - {gameId};
      }
    }
  }

  /** The thread MOVE starts in a bot game, run as one step: the bot
      (easy when player2 is -1, hard otherwise) picks a column; if it has
      one, it plays it as player2 and the human gets the board, then the
      result, or the turn back with a new countdown. */
  method BotTurn(game: Connect4Game, human: int, gameId: int, draw: real) returns (botColumn: int, outbox: seq<Send>)
    requires game.Valid() && 0.0 <= draw < 1.0
    modifies game.board, game`currentPlayer, game`turnTimer
    ensures game.Valid()
    ensures game.player1 == old(game.player1) && game.player2 == old(game.player2)
    ensures game.gameFinished == old(game.gameFinished) && game.turnDurationSeconds == old(game.turnDurationSeconds)
    ensures game.consecutiveTimeouts == old(game.consecutiveTimeouts) && game.gameInProgress == old(game.gameInProgress)
    ensures botColumn == BotChoice(old(game.Snapshot()), -game.player2, draw)
    ensures botColumn == -1 ==> outbox == [] && unchanged(game, game.board)
    ensures botColumn != -1 ==>
              BotPlayed(game, human, gameId, botColumn, old(game.Cells()), old(game.currentPlayer), old(game.turnTimer), outbox)
  {
    ghost var before := game.Cells();
    ghost var snapshot := game.Snapshot();
    var botDifficulty := -game.player2;
    if botDifficulty == 1 {
      botColumn := MakeEasyMove(game, draw);
    } else {
      botColumn := MakeHardMove(game, draw);
    }
    if botColumn == -1 {
      return botColumn, [];
    }
    outbox := PlayBotColumn(game, human, gameId, botColumn);
  }

  /** What the bot's move leaves behind, given the board, the turn and the
      countdown before it: the disc dropped when makeMove accepts the
      column, the board sent to the human, then either the result (turn
      and countdown as they were) or the turn back to the human with a
      new countdown that calls handleTurnTimeout. */
  ghost predicate BotPlayed(game: Connect4Game, human: int, gameId: int, botColumn: int,
                            before: Grid, currentBefore: int, timerBefore: TurnTimer, outbox: seq<Send>)
    requires game.Valid() && Shaped(before)
    reads game, game.board
  {
    var update := Send(human, Message(BoardUpdate, BoardString(game.Cells())));
    && game.Cells() == (if Accepts(before, game.gameFinished, botColumn)
                        then Drop(before, botColumn, Marker(game.player1, game.player2))
                        else before)
    && (HasFour(game.Cells()) ==>
          && outbox == [update, Send(human, Message(GameOver, if WinnerOf(game.Cells()) == 1 then "You win!" else "You lose!"))]
          && game.currentPlayer == currentBefore && game.turnTimer == timerBefore)
    && (!HasFour(game.Cells()) && IsDraw(game.Cells()) ==>
          && outbox == [update, Send(human, Message(GameOver, "Draw!"))]
          && game.currentPlayer == currentBefore && game.turnTimer == timerBefore)
    && (!HasFour(game.Cells()) && !IsDraw(game.Cells()) ==>
          && outbox == [update, Send(human, Message(Turn, ClientTag(human)))]
          && game.currentPlayer == OtherOf(game.player1, game.player2, currentBefore)
          && game.turnTimer == Armed(game.turnDurationSeconds, OnTimeout.HandleTurnTimeout(human, gameId)))
  }

  /** The bot's move once it has a column: makeMove as player2, the board
      to the human, then the result or the human's turn and countdown. */
  method PlayBotColumn(game: Connect4Game, human: int, gameId: int, botColumn: int) returns (outbox: seq<Send>)
    requires game.Valid()
    modifies game.board, game`currentPlayer, game`turnTimer
    ensures game.Valid()
    ensures game.player1 == old(game.player1) && game.player2 == old(game.player2)
    ensures game.gameFinished == old(game.gameFinished) && game.turnDurationSeconds == old(game.turnDurationSeconds)
    ensures game.consecutiveTimeouts == old(game.consecutiveTimeouts) && game.gameInProgress == old(game.gameInProgress)
    ensures BotPlayed(game, human, gameId, botColumn, old(game.Cells()), old(game.currentPlayer), old(game.turnTimer), outbox)
  {
    ghost var before := game.Cells();
    var _ := game.MakeMove(botColumn, game.player2);
    ghost var after := game.Cells();
    var updatedBoard := game.GetBoardString();
    outbox := [Send(human, Message(BoardUpdate, updatedBoard))];
    var won := game.CheckWinner();
    if won {
      outbox := outbox + [Send(human, Message(GameOver, if WinnerOf(game.Cells()) == 1 then "You win!" else "You lose!"))];
    } else if IsDraw(game.Cells()) {
      outbox := outbox + [Send(human, Message(GameOver, "Draw!"))];
    } else {
      game.SwitchTurn();
      outbox := outbox + [Send(human, Message(Turn, ClientTag(human)))];
      game.StartTurnTimer(OnTimeout.HandleTurnTimeout(human, gameId));
      assert game.Cells() == after;
    }
  }

  // ---------------------------------------------------------------------
  // The timeout handlers' work on the game

  /** handleTurnTimeout on the game: count the timeout; at two in a row
      announce the draw (the caller removes the game); otherwise switch the
      turn, tell the players and arm the new player's countdown. */
  method TimeoutOnGame(game: Connect4Game, connected: set<int>, nextPlayer: int, gameId: int)
    returns (outcome: Outcome, outbox: seq<Send>)
    requires game.Valid()
    modifies game`consecutiveTimeouts, game`currentPlayer, game`turnTimer
    ensures game.Valid()
    ensures game.consecutiveTimeouts == old(game.consecutiveTimeouts) + 1
    ensures game.consecutiveTimeouts >= 2 ==>
              && outcome == Drawn
              && game.currentPlayer == old(game.currentPlayer) && game.turnTimer == old(game.turnTimer)
              && outbox == Deliver(connected, game.currentPlayer, [InactivityDraw])
                            + Deliver(connected, OtherOf(game.player1, game.player2, game.currentPlayer), [InactivityDraw])
    ensures game.consecutiveTimeouts < 2 ==>
              && outcome == TurnPassed
              && game.currentPlayer == OtherOf(game.player1, game.player2, old(game.currentPlayer))
              && game.turnTimer == Armed(game.turnDurationSeconds, OnTimeout.HandleTurnTimeout(game.currentPlayer, gameId))
              && outbox == SkipNotices(connected, nextPlayer, game.currentPlayer,
                                       OtherOf(game.player1, game.player2, game.currentPlayer), BoardString(game.Cells()))
  {
    game.IncrementTimeouts();
    if game.consecutiveTimeouts >= 2 {
      var p1Out := Deliver(connected, game.currentPlayer, [InactivityDraw]);
      var p2Out := Deliver(connected, game.GetOtherPlayer(game.currentPlayer), [InactivityDraw]);
      return Drawn, p1Out + p2Out;
    }
    game.SwitchTurn();
    var newTurnPlayer := game.currentPlayer;
    outbox := TellSkip(game, connected, nextPlayer);
    game.StartTurnTimer(OnTimeout.HandleTurnTimeout(newTurnPlayer, gameId));
    outcome := TurnPassed;
  }

  /** The board, the turn and the notice of a skipped turn, once the turn
      has passed (see SkipNotices). */
  method TellSkip(game: Connect4Game, connected: set<int>, timedOut: int) returns (outbox: seq<Send>)
    requires game.Valid()
    ensures outbox == SkipNotices(connected, timedOut, game.currentPlayer,
                                  OtherOf(game.player1, game.player2, game.currentPlayer), BoardString(game.Cells()))
  {
    var newTurnPlayer := game.currentPlayer;
    var updatedBoard := game.GetBoardString();
    var updateMsg := Message(BoardUpdate, updatedBoard);
    var newTurnMsg := Message(Turn, ClientTag(newTurnPlayer));
    var otherPlayer := game.GetOtherPlayer(newTurnPlayer);
    outbox := Deliver(connected, timedOut, [Message(Text, "You ran out of time. Turn skipped."), newTurnMsg])
              + Deliver(connected, newTurnPlayer, [updateMsg, newTurnMsg]);
    if otherPlayer in connected && otherPlayer != newTurnPlayer {
      outbox := outbox + [Send(otherPlayer, updateMsg), Send(otherPlayer, newTurnMsg)];
    }
  }

  /** What the inline handler leaves behind when the turn passed: the
      TIMER_UPDATE goes to the earlier mover if it is to play now and to
      its opponent otherwise; when that client has no stream the handler
      stops there (Aborted) with the countdown as it was; otherwise the
      players are told as by handleTurnTimeout and a countdown calling
      handleTurnTimeout with nextPlayer starts. */
  ghost predicate InlineSkip(game: Connect4Game, connected: set<int>, nextPlayer: int, gameId: int, mover: int,
                             opponent: int, timerBefore: TurnTimer, outcome: Outcome, outbox: seq<Send>)
    requires game.Valid()
    reads game, game.board
  {
    var recipient := if game.currentPlayer == mover then mover else opponent;
    && (recipient !in connected ==> outcome == Aborted && outbox == [] && game.turnTimer == timerBefore)
    && (recipient in connected ==>
          && outcome == TurnPassed
          && game.turnTimer == Armed(game.turnDurationSeconds, OnTimeout.HandleTurnTimeout(nextPlayer, gameId))
          && outbox == [Send(recipient, Message(TimerUpdate, IntToString(game.turnDurationSeconds)))]
                       + SkipNotices(connected, nextPlayer, game.currentPlayer,
                                     OtherOf(game.player1, game.player2, game.currentPlayer), BoardString(game.Cells())))
  }

  /** The inline copy of handleTurnTimeout on the game (see
      Lobby.InlineTurnTimeout). */
  method InlineTimeoutOnGame(game: Connect4Game, connected: set<int>, nextPlayer: int, gameId: int, mover: int, opponent: int)
    returns (outcome: Outcome, outbox: seq<Send>)
    requires game.Valid()
    modifies game`consecutiveTimeouts, game`currentPlayer, game`turnTimer
    ensures game.Valid()
    ensures game.consecutiveTimeouts == old(game.consecutiveTimeouts) + 1
    ensures game.consecutiveTimeouts >= 2 ==>
              && outcome == Drawn
              && game.currentPlayer == old(game.currentPlayer) && game.turnTimer == old(game.turnTimer)
              && outbox == Deliver(connected, game.currentPlayer, [InactivityDraw])
                            + Deliver(connected, OtherOf(game.player1, game.player2, nextPlayer), [InactivityDraw])
    ensures game.consecutiveTimeouts < 2 ==>
              && game.currentPlayer == OtherOf(game.player1, game.player2, old(game.currentPlayer))
              && InlineSkip(game, connected, nextPlayer, gameId, mover, opponent, old(game.turnTimer), outcome, outbox)
  {
    game.IncrementTimeouts();
    if game.consecutiveTimeouts >= 2 {
      var p1Out := Deliver(connected, game.currentPlayer, [InactivityDraw]);
      var p2Out := Deliver(connected, game.GetOtherPlayer(nextPlayer), [InactivityDraw]);
      return Drawn, p1Out + p2Out;
    }
    game.SwitchTurn();
    var recipient := if game.currentPlayer == mover then mover else opponent;
    if recipient !in connected {
      return Aborted, [];
    }
    var timerUpdate := [Send(recipient, Message(TimerUpdate, IntToString(game.turnDurationSeconds)))];
    var notices := TellSkip(game, connected, nextPlayer);
    outbox := timerUpdate + notices;
    game.StartTurnTimer(OnTimeout.HandleTurnTimeout(nextPlayer, gameId));
    outcome := TurnPassed;
  }
}
