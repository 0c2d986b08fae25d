/** Connect4Game: one session's board, players, turn pointer, timeout
    counter, finished flag and turn timer, updated in place. The Java timer
    thread becomes an explicit Tick() event on an abstract timer state. */
module Game {
  import opened Wire
  import opened Board

  /** The callback the server registers with startTurnTimer. */
  datatype OnTimeout =
      /** handleTurnTimeout(game, timedOut, gameId) */
    | HandleTurnTimeout(timedOut: int, gameId: int)
      /** the copy of that handler written inline in the MOVE case; it also
          captures the mover and the opponent of the move that armed it */
    | InlineTimeout(timedOut: int, gameId: int, mover: int, opponent: int)

  /** At most one countdown per game: either none, or one with the seconds
      still to count and the callback to run when it expires. */
  datatype TurnTimer = Disarmed | Armed(remaining: int, onTimeout: OnTimeout)

  /** One run of the timer task (once a second, the first run at once):
      with nothing remaining it cancels itself and fires, otherwise it counts
      down. The result is the new timer and whether the callback fired. */
  function TimerStep(t: TurnTimer): (r: (TurnTimer, bool))
    ensures r.1 <==> t.Armed? && t.remaining <= 0
    ensures r.1 || t.Disarmed? ==> r.0 == Disarmed
    ensures t.Armed? && t.remaining > 0 ==> r.0 == Armed(t.remaining - 1, t.onTimeout)
  {
    match t
    case Disarmed => (Disarmed, false)
    case Armed(left, h) => if left <= 0 then (Disarmed, true) else (Armed(left - 1, h), false)
  }

  /** The timer after n runs, and how often it fired. */
  function Ticks(t: TurnTimer, n: nat): (TurnTimer, nat)
    decreases n
  {
    if n == 0 then (t, 0)
    else
      var (t', fired) := TimerStep(t);
      var (t'', k) := Ticks(t', n - 1);
      (t'', k + if fired then 1 else 0)
  }

  lemma {:induction false} DisarmedNeverFires(n: nat)
    ensures Ticks(Disarmed, n) == (Disarmed, 0)
  {
    if n > 0 {
      DisarmedNeverFires(n - 1);
    }
  }

  /** A countdown armed with d seconds stays quiet for d runs, fires on run
      d + 1, cancels itself, and never fires again. */
  lemma {:induction false} FiresOnce(d: nat, h: OnTimeout, n: nat)
    ensures Ticks(Armed(d, h), n) == if n <= d then (Armed(d - n, h), 0) else (Disarmed, 1)
  {
    if n > 0 {
      if d == 0 {
        DisarmedNeverFires(n - 1);
      } else {
        FiresOnce(d - 1, h, n - 1);
      }
    }
  }

  /** getOtherPlayer: player2 for player1, player1 for anyone else. */
  function OtherOf(player1: int, player2: int, playerId: int): (other: int)
    ensures other == player1 || other == player2
    ensures player1 != player2 && (playerId == player1 || playerId == player2) ==>
              other != playerId
  {
    if playerId == player1 then player2 else player1
  }

  /** Switching twice comes back to a player of the game. */
  lemma OtherTwice(player1: int, player2: int, x: int)
    requires x == player1 || x == player2
    ensures OtherOf(player1, player2, OtherOf(player1, player2, x)) == x
  {
  }

  class Connect4Game {
    var player1: int
    var player2: int
    var currentPlayer: int
    var initialStartingPlayer: int
    var turnDurationSeconds: int
    var turnTimer: TurnTimer
    var gameFinished: bool
    var consecutiveTimeouts: int
    var gameInProgress: bool
    const board: array2<int>

    /** The board, as a value. */
    function Cells(): (g: Grid)
      reads board
      requires board.Length0 == Rows && board.Length1 == Cols
      ensures Shaped(g)
      ensures forall r, c :: 0 <= r < Rows && 0 <= c < Cols ==> g[r][c] == board[r, c]
    {
      seq(Rows, (r: int) requires 0 <= r < Rows reads board =>
        seq(Cols, (c: int) requires 0 <= c < Cols reads board => board[r, c]))
    }

    /** The object invariant: a 6 x 7 board with cells in {0,1,2} under
        gravity, the turn pointer at one of the two players, and the
        starting player being player1. */
    ghost predicate Valid()
      reads this`player1, this`player2, this`currentPlayer, this`initialStartingPlayer, board
    {
      && board.Length0 == Rows && board.Length1 == Cols
      && WellFormed(Cells())
      && (currentPlayer == player1 || currentPlayer == player2)
      && initialStartingPlayer == player1
    }

    /** A copy() of the game, as a value. */
    function Snapshot(): (s: Board.Snapshot)
      reads this`player1, this`player2, this`currentPlayer, this`initialStartingPlayer, this`gameFinished, board
      requires Valid()
      ensures WellFormed(s.board)
      ensures s.board == Cells() && s.player1 == player1 && s.finished == gameFinished
    {
      Board.Snapshot(Cells(), player1, gameFinished)
    }

    constructor ()
      ensures Valid() && fresh(board)
      ensures Cells() == EmptyGrid()
      ensures player1 == 0 && player2 == 0 && currentPlayer == 0 && initialStartingPlayer == 0
      ensures turnDurationSeconds == 30 && turnTimer == Disarmed
      ensures !gameFinished && consecutiveTimeouts == 0 && gameInProgress
    {
      player1, player2, currentPlayer, initialStartingPlayer := 0, 0, 0, 0;
      turnDurationSeconds := 30;
      turnTimer := Disarmed;
      gameFinished := false;
      consecutiveTimeouts := 0;
      gameInProgress := true;
      board := new int[Rows, Cols];
      new;
      ClearBoard();
    }

    /** copy() is called by the server but is not part of Connect4Game.java;
        assumed here: a new game with the same board contents (in its own
        array) and the same players, turn, duration, counter and finished
        flag, and no timer armed. */
    method Copy() returns (c: Connect4Game)
      requires Valid()
      ensures fresh(c) && fresh(c.board) && c.Valid()
      ensures c.Cells() == Cells()
      ensures c.player1 == player1 && c.player2 == player2 && c.currentPlayer == currentPlayer
      ensures c.initialStartingPlayer == initialStartingPlayer
      ensures c.turnDurationSeconds == turnDurationSeconds && c.turnTimer == Disarmed
      ensures c.gameFinished == gameFinished && c.consecutiveTimeouts == consecutiveTimeouts
      ensures c.gameInProgress == gameInProgress
    {
      c := new Connect4Game();
      c.CopyCells(this);
      c.CopyFields(this);
    }

    /** Overwrites this game's fields, except the board and the timer, with another game's. */
    method CopyFields(other: Connect4Game)
      requires board.Length0 == Rows && board.Length1 == Cols
      requires other != this && other.Valid() && Cells() == other.Cells()
      modifies this`player1, this`player2, this`currentPlayer, this`initialStartingPlayer,
               this`turnDurationSeconds, this`gameFinished, this`consecutiveTimeouts, this`gameInProgress
      ensures Valid()
      ensures player1 == other.player1 && player2 == other.player2 && currentPlayer == other.currentPlayer
      ensures initialStartingPlayer == other.initialStartingPlayer
      ensures turnDurationSeconds == other.turnDurationSeconds
      ensures gameFinished == other.gameFinished && consecutiveTimeouts == other.consecutiveTimeouts
      ensures gameInProgress == other.gameInProgress
    {
      player1, player2, currentPlayer := other.player1, other.player2, other.currentPlayer;
      initialStartingPlayer, turnDurationSeconds := other.initialStartingPlayer, other.turnDurationSeconds;
      gameFinished, consecutiveTimeouts, gameInProgress := other.gameFinished, other.consecutiveTimeouts, other.gameInProgress;
    }

    /** Overwrites this board, cell by cell, with the cells of another game's board. */
    method CopyCells(other: Connect4Game)
      requires board.Length0 == Rows && board.Length1 == Cols
      requires other.board.Length0 == Rows && other.board.Length1 == Cols && other.board != board
      modifies board
      ensures Cells() == other.Cells()
    {
      for row := 0 to Rows
        invariant forall r, k :: 0 <= r < row && 0 <= k < Cols ==> board[r, k] == other.board[r, k]
      {
        for col := 0 to Cols
          invariant forall r, k :: 0 <= r < row && 0 <= k < Cols ==> board[r, k] == other.board[r, k]
          invariant forall k :: 0 <= k < col ==> board[row, k] == other.board[row, k]
        {
          board[row, col] := other.board[row, col];
        }
      }
      GridExt(Cells(), other.Cells());
    }

    method SetTurnDuration(seconds: int)
      modifies this`turnDurationSeconds
      ensures turnDurationSeconds == seconds
    {
      turnDurationSeconds := seconds;
    }

    /** Fixes both players; player1 moves first, now and after every reset. */
    method SetPlayers(p1: int, p2: int)
      requires Valid()
      modifies this`player1, this`player2, this`initialStartingPlayer, this`currentPlayer
      ensures Valid()
      ensures player1 == p1 && player2 == p2 && currentPlayer == p1 && initialStartingPlayer == p1
    {
      player1 := p1;
      player2 := p2;
      initialStartingPlayer := p1;
      currentPlayer := p1;
    }

    method ResetTimeouts()
      modifies this`consecutiveTimeouts
      ensures consecutiveTimeouts == 0
    {
      consecutiveTimeouts := 0;
    }

    method IncrementTimeouts()
      modifies this`consecutiveTimeouts
      ensures consecutiveTimeouts == old(consecutiveTimeouts) + 1
    {
      consecutiveTimeouts := consecutiveTimeouts + 1;
    }

    /** Arms a fresh countdown of turnDurationSeconds, cancelling any armed one first. */
    method StartTurnTimer(onTimeout: OnTimeout)
      modifies this`turnTimer
      ensures turnTimer == Armed(turnDurationSeconds, onTimeout)
    {
      CancelTurnTimer();
      turnTimer := Armed(turnDurationSeconds, onTimeout);
    }

    /** Disarms the countdown; nothing happens when none is armed. */
    method CancelTurnTimer()
      modifies this`turnTimer
      ensures turnTimer == Disarmed
      ensures old(turnTimer) == Disarmed ==> unchanged(this)
    {
      if turnTimer != Disarmed {
        turnTimer := Disarmed;
      }
    }

    /** One second of the timer thread: the callback to run when it fires. */
    method Tick() returns (fired: bool, onTimeout: OnTimeout)
      modifies this`turnTimer
      ensures (turnTimer, fired) == TimerStep(old(turnTimer))
      ensures fired ==> onTimeout == old(turnTimer).onTimeout
    {
      fired := false;
      onTimeout := HandleTurnTimeout(0, 0);
      match turnTimer {
        case Disarmed =>
        case Armed(left, h) =>
          if left <= 0 {
            turnTimer := Disarmed;
            fired, onTimeout := true, h;
          } else {
            turnTimer := Armed(left - 1, h);
          }
      }
    }

    /** Drops the mover's disc (1 for player1, 2 otherwise) into the lowest
        empty row of col; refuses, changing nothing, when col is off the
        board, the game is finished or the column is full. */
    method MakeMove(col: int, playerId: int) returns (ok: bool)
      requires Valid()
      modifies board
      ensures Valid()
      ensures ok == Accepts(old(Cells()), gameFinished, col)
      ensures Cells() == if ok then Drop(old(Cells()), col, Marker(player1, playerId)) else old(Cells())
    {
      if col < 0 || col >= Cols || gameFinished {
        return false;
      }
      var row := Rows - 1;
      while row >= 0
        invariant -1 <= row < Rows
        invariant forall r :: row < r < Rows ==> board[r, col] != 0
        invariant Cells() == old(Cells())
      {
        if board[row, col] == 0 {
          ghost var before := Cells();
          LowestEmptyUnique(before, col, row);
          var m := if playerId == player1 then 1 else 2;
          board[row, col] := m;
          GridExt(Cells(), Drop(before, col, m));
          DropWellFormed(before, col, m);
          return true;
        }
        row := row - 1;
      }
      LowestEmptyUnique(Cells(), col, -1);
      return false;
    }

    /** checkDirection(row, col): the four cells from (row, col) rightwards,
        downwards, down-right or up-right all equal board[row][col]. */
    function CheckDirection(row: int, col: int): (r: bool)
      reads board
      requires board.Length0 == Rows && board.Length1 == Cols
      requires 0 <= row < Rows && 0 <= col < Cols
      ensures board[row, col] != 0 ==> (r <==> StartsLine(Cells(), row, col))
    {
      LinesOnBoard(row, col);
      var player := board[row, col];
      var horizontal := col + 3 < Cols && player == board[row, col + 1] && player == board[row, col + 2] && player == board[row, col + 3];
      var vertical := row + 3 < Rows && player == board[row + 1, col] && player == board[row + 2, col] && player == board[row + 3, col];
      var falling := row + 3 < Rows && col + 3 < Cols && player == board[row + 1, col + 1] && player == board[row + 2, col + 2] && player == board[row + 3, col + 3];
      var rising := row - 3 >= 0 && col + 3 < Cols && player == board[row - 1, col + 1] && player == board[row - 2, col + 2] && player == board[row - 3, col + 3];
      horizontal || vertical || falling || rising
    }

    /** The four lines of four from (row, col), read off the array in
        checkDirection's terms. */
    lemma LinesOnBoard(row: int, col: int)
      requires board.Length0 == Rows && board.Length1 == Cols
      requires 0 <= row < Rows && 0 <= col < Cols
      ensures var p := board[row, col];
        p != 0 ==>
        && (LineAt(Cells(), row, col, 0) <==>
              col + 3 < Cols && p == board[row, col + 1] && p == board[row, col + 2] && p == board[row, col + 3])
        && (LineAt(Cells(), row, col, 1) <==>
              row + 3 < Rows && p == board[row + 1, col] && p == board[row + 2, col] && p == board[row + 3, col])
        && (LineAt(Cells(), row, col, 2) <==>
              row + 3 < Rows && col + 3 < Cols && p == board[row + 1, col + 1] && p == board[row + 2, col + 2] && p == board[row + 3, col + 3])
        && (LineAt(Cells(), row, col, 3) <==>
              row - 3 >= 0 && col + 3 < Cols && p == board[row - 1, col + 1] && p == board[row - 2, col + 2] && p == board[row - 3, col + 3])
    {
    }

    /** checkWinner: true exactly when some line of four equal discs exists. */
    method CheckWinner() returns (won: bool)
      requires board.Length0 == Rows && board.Length1 == Cols
      ensures won == HasFour(Cells())
    {
      for row := 0 to Rows
        invariant forall r, c :: 0 <= r < row && 0 <= c < Cols ==> board[r, c] == 0 || !CheckDirection(r, c)
      {
        for col := 0 to Cols
          invariant forall r, c :: 0 <= r < row && 0 <= c < Cols ==> board[r, c] == 0 || !CheckDirection(r, c)
          invariant forall c :: 0 <= c < col ==> board[row, c] == 0 || !CheckDirection(row, c)
        {
          if board[row, col] != 0 && CheckDirection(row, col) {
            return true;
          }
        }
      }
      forall r, c | 0 <= r < Rows && 0 <= c < Cols
        ensures !StartsLine(Cells(), r, c)
      {
        assert board[r, c] == 0 || !CheckDirection(r, c);
      }
      return false;
    }

    /** Empties the board, clears the finished flag and the timeout counter,
        disarms the timer and gives the turn back to the starting player. */
    method Reset()
      requires Valid()
      modifies this, board
      ensures Valid()
      ensures Cells() == EmptyGrid()
      ensures turnTimer == Disarmed && gameInProgress && !gameFinished && consecutiveTimeouts == 0
      ensures currentPlayer == old(initialStartingPlayer)
      ensures player1 == old(player1) && player2 == old(player2)
      ensures initialStartingPlayer == old(initialStartingPlayer)
      ensures turnDurationSeconds == old(turnDurationSeconds)
    {
      CancelTurnTimer();
      ClearBoard();
      gameInProgress := true;
      gameFinished := false;
      consecutiveTimeouts := 0;
      currentPlayer := initialStartingPlayer;
    }

    method ClearBoard()
      requires board.Length0 == Rows && board.Length1 == Cols
      modifies board
      ensures Cells() == EmptyGrid()
    {
      for row := 0 to Rows
        invariant forall r, c :: 0 <= r < row && 0 <= c < Cols ==> board[r, c] == 0
      {
        for col := 0 to Cols
          invariant forall r, c :: 0 <= r < row && 0 <= c < Cols ==> board[r, c] == 0
          invariant forall c :: 0 <= c < col ==> board[row, c] == 0
        {
          board[row, col] := 0;
        }
      }
      GridExt(Cells(), EmptyGrid());
    }

    /** getBoardString: the cells row by row, rows separated by commas. */
    method GetBoardString() returns (s: string)
      requires Valid()
      ensures s == BoardString(Cells())
    {
      s := "";
      for row := 0 to Rows
        invariant s == BoardPrefix(Cells(), row)
      {
        for col := 0 to Cols
          invariant s == BoardPrefix(Cells(), row) + RowText(Cells()[row], col)
        {
          s := s + IntToString(board[row, col]);
        }
        if row < Rows - 1 {
          s := s + ",";
        }
      }
    }

    /** Hands the turn to the other player. */
    method SwitchTurn()
      requires Valid()
      modifies this`currentPlayer
      ensures Valid()
      ensures currentPlayer == OtherOf(player1, player2, old(currentPlayer))
    {
      currentPlayer := if currentPlayer == player1 then player2 else player1;
    }

    /** getOtherPlayer on the game's own players. */
    function GetOtherPlayer(playerId: int): int
      reads this
    {
      OtherOf(player1, player2, playerId)
    }

    method SetGameFinished(finished: bool)
      modifies this`gameFinished
      ensures gameFinished == finished
    {
      gameFinished := finished;
    }
  }
}
