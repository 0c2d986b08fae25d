/** The two computer opponents: makeEasyMove picks a random valid column,
    makeHardMove looks for a winning column, then a blocking one, then the
    column nearest the centre. Both only read the game; the hard bot plays
    its trial moves on copies. Math.random() becomes the draw parameter, a
    real in [0, 1). */
module Bot {
  import opened Board
  import opened Game

  /** The columns the hard bot falls back on, centre first. */
  const Priority: seq<int> := [3, 2, 4, 1, 5, 0, 6]

  /** The valid columns below n, in increasing order. */
  function ValidColumns(g: Grid, n: int): (cols: seq<int>)
    requires Shaped(g) && 0 <= n <= Cols
    ensures forall c :: c in cols <==> 0 <= c < n && IsValidMove(g, c)
    ensures forall i, j :: 0 <= i < j < |cols| ==> cols[i] < cols[j]
    decreases n
  {
    if n == 0 then []
    else
      var below := ValidColumns(g, n - 1);
      assert forall i :: 0 <= i < |below| ==> below[i] in below;
      below + if IsValidMove(g, n - 1) then [n - 1] else []
  }

  /** (int)(Math.random() * n) for a draw in [0, 1): an index below n. */
  function RandomIndex(draw: real, n: int): (i: int)
    requires 0.0 <= draw < 1.0 && n > 0
    ensures 0 <= i < n
  {
    assert draw * n as real < n as real;
    (draw * n as real).Floor
  }

  /** Every index is drawn by some value of Math.random(). */
  lemma EveryIndexDrawn(i: int, n: int)
    requires 0 <= i < n
    ensures 0.0 <= i as real / n as real < 1.0
    ensures RandomIndex(i as real / n as real, n) == i
  {
    assert i as real / n as real * n as real == i as real;
  }

  /** makeEasyMove returns column c for the draw. */
  predicate EasyPicks(g: Grid, draw: real, c: int)
    requires Shaped(g)
  {
    var valid := ValidColumns(g, Cols);
    0.0 <= draw < 1.0 && |valid| > 0 && valid[RandomIndex(draw, |valid|)] == c
  }

  /** What makeEasyMove returns: -1 exactly when no column is valid,
      otherwise a valid column, the one at the drawn position of the
      ascending list of valid columns. */
  function EasyChoice(g: Grid, draw: real): (col: int)
    requires Shaped(g) && 0.0 <= draw < 1.0
    ensures col == -1 <==> forall c :: 0 <= c < Cols ==> !IsValidMove(g, c)
    ensures col != -1 ==> IsValidMove(g, col) && EasyPicks(g, draw, col)
  {
    var valid := ValidColumns(g, Cols);
    if |valid| == 0 then -1
    else
      assert valid[RandomIndex(draw, |valid|)] in valid;
      valid[RandomIndex(draw, |valid|)]
  }

  /** makeEasyMove collects the valid columns in a loop and draws one. */
  method MakeEasyMove(game: Connect4Game, draw: real) returns (col: int)
    requires game.Valid() && 0.0 <= draw < 1.0
    ensures col == EasyChoice(game.Cells(), draw)
  {
    var validColumns: seq<int> := [];
    for c := 0 to Cols
      invariant validColumns == ValidColumns(game.Cells(), c)
    {
      if IsValidMove(game.Cells(), c) {
        validColumns := validColumns + [c];
      }
    }
    if |validColumns| > 0 {
      col := validColumns[RandomIndex(draw, |validColumns|)];
      return;
    }
    return -1;
  }

  /** Every valid column is the easy bot's choice for some draw. */
  lemma EasyMoveReachesEvery(g: Grid, c: int)
    requires WellFormed(g) && IsValidMove(g, c)
    ensures exists draw: real :: EasyPicks(g, draw, c)
  {
    var valid := ValidColumns(g, Cols);
    assert c in valid;
    var i :| 0 <= i < |valid| && valid[i] == c;
    EveryIndexDrawn(i, |valid|);
    var draw := i as real / |valid| as real;
    assert EasyPicks(g, draw, c);
  }

  // ---------------------------------------------------------------------
  // The hard bot

  /** On a copy of the game, makeMove(col, id) on a valid column followed by
      checkWinner() and getWinner() == id. */
  predicate Completes(s: Board.Snapshot, col: int, id: int)
    requires WellFormed(s.board)
  {
    IsValidMove(s.board, col) && HasFour(Simulate(s, col, id)) && WinnerOf(Simulate(s, col, id)) == id
  }

  /** The first column from `from` on that completes a line for id, or -1. */
  function FirstCompleting(s: Board.Snapshot, id: int, from: int): (col: int)
    requires WellFormed(s.board) && 0 <= from <= Cols
    ensures col == -1 || from <= col < Cols
    ensures col == -1 ==> forall c :: from <= c < Cols ==> !Completes(s, c, id)
    ensures col != -1 ==> Completes(s, col, id) && forall c :: from <= c < col ==> !Completes(s, c, id)
    decreases Cols - from
  {
    if from == Cols then -1
    else if Completes(s, from, id) then from
    else FirstCompleting(s, id, from + 1)
  }

  /** The first position of Priority from i on whose column is valid, or 7. */
  function FirstPriority(g: Grid, i: int): (k: int)
    requires Shaped(g) && 0 <= i <= |Priority|
    ensures i <= k <= |Priority|
    ensures k < |Priority| ==> IsValidMove(g, Priority[k])
    ensures forall j :: i <= j < k ==> !IsValidMove(g, Priority[j])
    decreases |Priority| - i
  {
    if i == |Priority| then i
    else if IsValidMove(g, Priority[i]) then i
    else FirstPriority(g, i + 1)
  }

  /** A column that completes a line with no earlier one is the first. */
  lemma FirstCompletingIs(s: Board.Snapshot, id: int, col: int)
    requires WellFormed(s.board)
    requires col == -1 || (0 <= col < Cols && Completes(s, col, id))
    requires forall c :: 0 <= c < Cols && (col == -1 || c < col) ==> !Completes(s, c, id)
    ensures FirstCompleting(s, id, 0) == col
  {
  }

  /** Priority lists every column. */
  lemma PriorityCoversAll(c: int)
    requires 0 <= c < Cols
    ensures exists k :: 0 <= k < |Priority| && Priority[k] == c
  {
    var k := if c == 3 then 0 else if c == 2 then 1 else if c == 4 then 2
             else if c == 1 then 3 else if c == 5 then 4 else if c == 0 then 5 else 6;
    assert Priority[k] == c;
  }

  /** What makeHardMove returns: the first winning column for id 2, else
      the first winning column for id 1, else the first valid column in
      centre-first order, else -1. */
  function HardChoice(s: Board.Snapshot): (col: int)
    requires WellFormed(s.board)
    ensures col == -1 <==> forall c :: 0 <= c < Cols ==> !IsValidMove(s.board, c)
    ensures col != -1 ==> IsValidMove(s.board, col)
  {
    var win := FirstCompleting(s, 2, 0);
    if win != -1 then win
    else
      var block := FirstCompleting(s, 1, 0);
      if block != -1 then block
      else
        var k := FirstPriority(s.board, 0);
        if k < |Priority| then Priority[k]
        else
          assert forall c :: 0 <= c < Cols ==> !IsValidMove(s.board, c) by {
            forall c | 0 <= c < Cols ensures !IsValidMove(s.board, c) {
              PriorityCoversAll(c);
            }
          }
          -1
  }

  /** makeHardMove: trial moves with ids 2 and then 1 on copies of the game,
      then the centre-first scan, then makeEasyMove. */
  method MakeHardMove(game: Connect4Game, draw: real) returns (col: int)
    requires game.Valid() && 0.0 <= draw < 1.0
    ensures col == HardChoice(game.Snapshot())
  {
    col := FirstTrialWin(game, 2);
    if col != -1 {
      return;
    }
    col := FirstTrialWin(game, 1);
    if col != -1 {
      return;
    }
    col := CentreFirst(game);
    if col != -1 {
      return;
    }
    col := MakeEasyMove(game, draw);
  }

  /** One of makeHardMove's two trial loops: the first column, ascending,
      whose trial move with id wins, or -1. */
  method FirstTrialWin(game: Connect4Game, id: int) returns (col: int)
    requires game.Valid()
    ensures col == FirstCompleting(game.Snapshot(), id, 0)
  {
    for c := 0 to Cols
      invariant forall c' :: 0 <= c' < c ==> !Completes(game.Snapshot(), c', id)
    {
      var wins := TrialWins(game, c, id);
      if wins {
        FirstCompletingIs(game.Snapshot(), id, c);
        return c;
      }
    }
    FirstCompletingIs(game.Snapshot(), id, -1);
    return -1;
  }

  /** makeHardMove's scan of columnPriority: the first valid column in
      centre-first order, or -1. */
  method CentreFirst(game: Connect4Game) returns (col: int)
    requires game.Valid()
    ensures var k := FirstPriority(game.Cells(), 0);
            col == if k < |Priority| then Priority[k] else -1
  {
    for i := 0 to |Priority|
      invariant forall j :: 0 <= j < i ==> !IsValidMove(game.Cells(), Priority[j])
    {
      if IsValidMove(game.Cells(), Priority[i]) {
        return Priority[i];
      }
    }
    return -1;
  }

  /** One trial of makeHardMove: on a valid column, play id on a copy and
      ask whether that copy now has a line won by id. */
  method TrialWins(game: Connect4Game, col: int, id: int) returns (wins: bool)
    requires game.Valid()
    ensures wins == Completes(game.Snapshot(), col, id)
  {
    wins := false;
    if IsValidMove(game.Cells(), col) {
      var testGame := game.Copy();
      var _ := testGame.MakeMove(col, id);
      var won := testGame.CheckWinner();
      wins := won && WinnerOf(testGame.Cells()) == id;
    }
  }

  /** The literal ids 1 and 2 reach makeMove, which compares them with
      player1: unless the human is client 1 or 2, both trial moves drop
      disc 2, the bot's own disc. */
  lemma TrialDiscs(s: Board.Snapshot, col: int)
    requires WellFormed(s.board)
    ensures s.player1 == 1 ==> Marker(s.player1, 2) == 2 && Marker(s.player1, 1) == 1
    ensures s.player1 != 1 && s.player1 != 2 ==> Simulate(s, col, 1) == Simulate(s, col, 2)
  {
  }

  /** So for a human who is neither client 1 nor client 2, the blocking
      scan never fires on a board without a line: the trial drop is disc 2,
      and a new line can only be made of the disc just dropped. */
  lemma {:induction false} NoBlockUnlessClientOne(s: Board.Snapshot, col: int)
    requires WellFormed(s.board) && !HasFour(s.board)
    requires s.player1 != 1 && s.player1 != 2
    ensures !Completes(s, col, 1)
  {
    if IsValidMove(s.board, col) && Accepts(s.board, s.finished, col) {
      DropWinner(s.board, col, 2);
    }
  }

  /** When the human is client 1, the first scan finds exactly the columns
      where the bot's disc 2 completes a line and the second those where the
      human's disc 1 would, on a board without a line. */
  lemma {:induction false} TrialsWhenHumanIsClientOne(s: Board.Snapshot, col: int, id: int)
    requires WellFormed(s.board) && !HasFour(s.board) && s.player1 == 1
    requires id == 1 || id == 2
    requires IsValidMove(s.board, col) && !s.finished
    ensures Completes(s, col, id) <==> HasFour(Drop(s.board, col, id))
  {
    FullColumn(s.board, col);
    DropWinner(s.board, col, id);
  }

  /** The column the server's bot thread plays: the bot's difficulty is
      -player2, 1 meaning easy; any other value plays the hard bot. */
  function BotChoice(s: Board.Snapshot, difficulty: int, draw: real): (col: int)
    requires WellFormed(s.board) && 0.0 <= draw < 1.0
    ensures col == -1 <==> forall c :: 0 <= c < Cols ==> !IsValidMove(s.board, c)
    ensures col != -1 ==> IsValidMove(s.board, col)
  {
    if difficulty == 1 then EasyChoice(s.board, draw) else HardChoice(s)
  }
}
