/** The 6 x 7 Connect 4 grid as a value: gravity, the drop performed by
    makeMove, four-in-a-row lines as checkDirection sees them, and the
    row-major text that getBoardString sends to clients. The class that
    updates a grid in place is Game.Connect4Game; this module is its
    specification and what the bot simulates on. */
module Board {
  import opened Wire

  const Rows: int := 6
  const Cols: int := 7

  /** board[row][col]; row 0 is the top row, row 5 the bottom row.
      0 is an empty cell, 1 and 2 are the two players' discs. */
  type Grid = seq<seq<int>>

  predicate Shaped(g: Grid)
  {
    |g| == Rows && forall r :: 0 <= r < Rows ==> |g[r]| == Cols
  }

  predicate InRange(g: Grid)
    requires Shaped(g)
  {
    forall r, c :: 0 <= r < Rows && 0 <= c < Cols ==> 0 <= g[r][c] <= 2
  }

  /** Gravity: below a disc, every cell of its column holds a disc, so the
      discs of a column form one block resting on the bottom row. */
  predicate Settled(g: Grid)
    requires Shaped(g)
  {
    forall r, r', c :: 0 <= r <= r' < Rows && 0 <= c < Cols && g[r][c] != 0 ==> g[r'][c] != 0
  }

  predicate WellFormed(g: Grid)
  {
    Shaped(g) && InRange(g) && Settled(g)
  }

  /** The board clearBoard leaves behind. */
  function EmptyGrid(): (g: Grid)
    ensures WellFormed(g)
    ensures forall r, c :: 0 <= r < Rows && 0 <= c < Cols ==> g[r][c] == 0
  {
    seq(Rows, _ => seq(Cols, _ => 0))
  }

  /** Two shaped grids that agree on every cell are equal. */
  lemma GridExt(a: Grid, b: Grid)
    requires Shaped(a) && Shaped(b)
    requires forall r, c :: 0 <= r < Rows && 0 <= c < Cols ==> a[r][c] == b[r][c]
    ensures a == b
  {
    forall r | 0 <= r < Rows ensures a[r] == b[r] {
      assert forall c :: 0 <= c < Cols ==> a[r][c] == b[r][c];
    }
  }

  // ---------------------------------------------------------------------
  // makeMove

  /** The row makeMove fills: scanning up from row, the first empty cell
      of column col, or -1 when there is none. */
  function LowestEmptyFrom(g: Grid, col: int, row: int): (r: int)
    requires Shaped(g) && 0 <= col < Cols && -1 <= row < Rows
    ensures -1 <= r <= row
    ensures r >= 0 ==> g[r][col] == 0
    ensures forall k :: r < k <= row ==> g[k][col] != 0
    decreases row + 1
  {
    if row < 0 then -1
    else if g[row][col] == 0 then row
    else LowestEmptyFrom(g, col, row - 1)
  }

  /** The lowest empty row of column col (-1 when the column is full). */
  function LowestEmpty(g: Grid, col: int): (r: int)
    requires Shaped(g) && 0 <= col < Cols
    ensures -1 <= r < Rows
    ensures r >= 0 ==> g[r][col] == 0
    ensures forall k :: r < k < Rows ==> g[k][col] != 0
  {
    LowestEmptyFrom(g, col, Rows - 1)
  }

  /** The lowest empty row is the only empty row with every row below it filled. */
  lemma LowestEmptyUnique(g: Grid, col: int, row: int)
    requires Shaped(g) && 0 <= col < Cols && -1 <= row < Rows
    requires row >= 0 ==> g[row][col] == 0
    requires forall k :: row < k < Rows ==> g[k][col] != 0
    ensures LowestEmpty(g, col) == row
  {
  }

  /** With gravity, a column takes another disc exactly when its top cell is empty. */
  lemma FullColumn(g: Grid, col: int)
    requires Shaped(g) && Settled(g) && 0 <= col < Cols
    ensures LowestEmpty(g, col) >= 0 <==> g[0][col] == 0
  {
  }

  /** The disc makeMove writes: 1 for player1, 2 for anyone else. */
  function Marker(player1: int, playerId: int): int
  {
    if playerId == player1 then 1 else 2
  }

  /** makeMove's acceptance test: column in range, game not finished, column not full. */
  predicate Accepts(g: Grid, finished: bool, col: int)
    requires Shaped(g)
  {
    0 <= col < Cols && !finished && LowestEmpty(g, col) >= 0
  }

  /** The grid after a disc m is dropped into column col. */
  function Drop(g: Grid, col: int, m: int): (g': Grid)
    requires Shaped(g) && 0 <= col < Cols && LowestEmpty(g, col) >= 0
    ensures Shaped(g')
    ensures forall r, c {:trigger g'[r][c]} :: 0 <= r < Rows && 0 <= c < Cols ==>
              g'[r][c] == if r == LowestEmpty(g, col) && c == col then m else g[r][c]
  {
    var row := LowestEmpty(g, col);
    g[row := g[row][col := m]]
  }

  /** A drop keeps cell values in {0,1,2} and keeps gravity. */
  lemma DropWellFormed(g: Grid, col: int, m: int)
    requires WellFormed(g) && 0 <= col < Cols && LowestEmpty(g, col) >= 0
    requires m == 1 || m == 2
    ensures WellFormed(Drop(g, col, m))
  {
  }

  /** Every sequence of accepted drops from the empty board keeps the board well formed. */
  lemma {:induction false} DropsWellFormed(g: Grid, moves: seq<(int, int)>)
    requires WellFormed(g)
    requires forall i :: 0 <= i < |moves| ==> moves[i].1 == 1 || moves[i].1 == 2
    ensures WellFormed(DropAll(g, moves))
    decreases |moves|
  {
    if |moves| > 0 {
      var col := moves[0].0;
      if 0 <= col < Cols && LowestEmpty(g, col) >= 0 {
        DropWellFormed(g, col, moves[0].1);
        DropsWellFormed(Drop(g, col, moves[0].1), moves[1..]);
      } else {
        DropsWellFormed(g, moves[1..]);
      }
    }
  }

  /** Successive makeMove calls, each a (column, disc) pair; refused ones leave the grid alone. */
  function DropAll(g: Grid, moves: seq<(int, int)>): Grid
    requires Shaped(g)
    decreases |moves|
  {
    if |moves| == 0 then g
    else
      var col := moves[0].0;
      if 0 <= col < Cols && LowestEmpty(g, col) >= 0
      then DropAll(Drop(g, col, moves[0].1), moves[1..])
      else DropAll(g, moves[1..])
  }

  /** A value copy of a game, as the hard bot's copy() is assumed to make:
      the grid, the player whose discs are 1, and the finished flag. */
  datatype Snapshot = Snapshot(board: Grid, player1: int, finished: bool)

  /** The grid of a copy after makeMove(col, playerId) on it. */
  function Simulate(s: Snapshot, col: int, playerId: int): (g: Grid)
    requires Shaped(s.board)
    ensures Shaped(g)
  {
    if Accepts(s.board, s.finished, col) then Drop(s.board, col, Marker(s.player1, playerId))
    else s.board
  }

  /** isValidMove is called by the server but is not part of Connect4Game.java;
      assumed here: the column is in range and its top cell is empty. */
  predicate IsValidMove(g: Grid, col: int)
    requires Shaped(g)
  {
    0 <= col < Cols && g[0][col] == 0
  }

  // ---------------------------------------------------------------------
  // Four in a row

  /** Row and column steps of checkDirection's four directions:
      0 horizontal, 1 vertical (down), 2 diagonal down-right, 3 diagonal up-right. */
  function DRow(d: int): int { if d == 1 || d == 2 then 1 else if d == 3 then -1 else 0 }
  function DCol(d: int): int { if d == 1 then 0 else 1 }

  /** Four cells starting at (r, c) in direction d lie on the board and hold the same disc. */
  predicate LineAt(g: Grid, r: int, c: int, d: int)
    requires Shaped(g)
  {
    && 0 <= d < 4 && 0 <= r < Rows && 0 <= c < Cols
    && 0 <= r + 3 * DRow(d) < Rows && c + 3 * DCol(d) < Cols
    && g[r][c] != 0
    && g[r + DRow(d)][c + DCol(d)] == g[r][c]
    && g[r + 2 * DRow(d)][c + 2 * DCol(d)] == g[r][c]
    && g[r + 3 * DRow(d)][c + 3 * DCol(d)] == g[r][c]
  }

  predicate StartsLine(g: Grid, r: int, c: int)
    requires Shaped(g)
  {
    LineAt(g, r, c, 0) || LineAt(g, r, c, 1) || LineAt(g, r, c, 2) || LineAt(g, r, c, 3)
  }

  /** Some horizontal, vertical or diagonal line of four equal discs exists. */
  predicate HasFour(g: Grid)
    requires Shaped(g)
  {
    exists r, c :: 0 <= r < Rows && 0 <= c < Cols && StartsLine(g, r, c)
  }

  /** getWinner is called by the server but is not part of Connect4Game.java;
      assumed here: the disc of the first cell, in checkWinner's row-major
      scan, that starts a line, and 0 when there is none. */
  function WinnerFrom(g: Grid, k: int): (w: int)
    requires Shaped(g) && 0 <= k <= Rows * Cols
    decreases Rows * Cols - k
  {
    if k == Rows * Cols then 0
    else if StartsLine(g, k / Cols, k % Cols) then g[k / Cols][k % Cols]
    else WinnerFrom(g, k + 1)
  }

  function WinnerOf(g: Grid): int
    requires Shaped(g)
  {
    WinnerFrom(g, 0)
  }

  lemma {:induction false} WinnerFromSpec(g: Grid, k: int)
    requires Shaped(g) && 0 <= k <= Rows * Cols
    ensures WinnerFrom(g, k) == 0 ==>
              forall j :: k <= j < Rows * Cols ==> !StartsLine(g, j / Cols, j % Cols)
    ensures WinnerFrom(g, k) != 0 ==>
              exists j :: k <= j < Rows * Cols && StartsLine(g, j / Cols, j % Cols) && WinnerFrom(g, k) == g[j / Cols][j % Cols]
    decreases Rows * Cols - k
  {
    if k < Rows * Cols && !StartsLine(g, k / Cols, k % Cols) {
      WinnerFromSpec(g, k + 1);
    }
  }

  /** There is a winner exactly when there is a line of four. */
  lemma WinnerIffFour(g: Grid)
    requires Shaped(g)
    ensures HasFour(g) <==> WinnerOf(g) != 0
  {
    WinnerFromSpec(g, 0);
    if HasFour(g) {
      var r, c :| 0 <= r < Rows && 0 <= c < Cols && StartsLine(g, r, c);
      assert (r * Cols + c) / Cols == r && (r * Cols + c) % Cols == c;
    }
    if WinnerOf(g) != 0 {
      var j :| 0 <= j < Rows * Cols && StartsLine(g, j / Cols, j % Cols);
      assert 0 <= j / Cols < Rows;
    }
  }

  /** A line on the board after a drop that did not start at the same cell
      before runs through the dropped disc, so it is made of that disc. */
  lemma NewLineIsDropped(g: Grid, col: int, m: int, r: int, c: int)
    requires Shaped(g) && 0 <= col < Cols && LowestEmpty(g, col) >= 0 && m != 0
    requires 0 <= r < Rows && 0 <= c < Cols && !StartsLine(g, r, c)
    requires StartsLine(Drop(g, col, m), r, c)
    ensures Drop(g, col, m)[r][c] == m
  {
  }

  /** After dropping disc m onto a board without a line, the winner, if any, is m. */
  lemma DropWinner(g: Grid, col: int, m: int)
    requires Shaped(g) && 0 <= col < Cols && LowestEmpty(g, col) >= 0 && m != 0
    requires !HasFour(g)
    ensures HasFour(Drop(g, col, m)) <==> WinnerOf(Drop(g, col, m)) == m
  {
    var g' := Drop(g, col, m);
    WinnerIffFour(g');
    WinnerFromSpec(g', 0);
    if WinnerOf(g') != 0 {
      var j :| 0 <= j < Rows * Cols && StartsLine(g', j / Cols, j % Cols) && WinnerOf(g') == g'[j / Cols][j % Cols];
      NewLineIsDropped(g, col, m, j / Cols, j % Cols);
    }
  }

  /** checkDraw is called by the server but is not part of Connect4Game.java;
      assumed here: the top row is full and nobody has four in a row. */
  predicate IsDraw(g: Grid)
    requires Shaped(g)
  {
    (forall c :: 0 <= c < Cols ==> g[0][c] != 0) && !HasFour(g)
  }

  // ---------------------------------------------------------------------
  // getBoardString

  /** The decimal texts of the first n cells of a row, concatenated. */
  function RowText(row: seq<int>, n: int): string
    requires 0 <= n <= |row|
  {
    if n == 0 then "" else RowText(row, n - 1) + IntToString(row[n - 1])
  }

  /** The comma that follows every row but the last. */
  function Separator(r: int): string
  {
    if r < Rows - 1 then "," else ""
  }

  /** getBoardString's output after its first n rows. */
  function BoardPrefix(g: Grid, n: int): string
    requires Shaped(g) && 0 <= n <= Rows
  {
    if n == 0 then "" else BoardPrefix(g, n - 1) + RowText(g[n - 1], Cols) + Separator(n - 1)
  }

  function BoardString(g: Grid): string
    requires Shaped(g)
  {
    BoardPrefix(g, Rows)
  }

  /** The character a cell value 0, 1 or 2 prints as. */
  function CellChar(v: int): char
    requires 0 <= v <= 2
  {
    DigitChar(v)
  }

  lemma {:induction false} RowTextDigits(row: seq<int>, n: int)
    requires 0 <= n <= |row|
    requires forall c :: 0 <= c < |row| ==> 0 <= row[c] <= 2
    ensures |RowText(row, n)| == n
    ensures forall c :: 0 <= c < n ==> RowText(row, n)[c] == CellChar(row[c])
  {
    if n > 0 {
      RowTextDigits(row, n - 1);
    }
  }

  /** The texts of the six rows, in order. */
  function RowTexts(g: Grid): (rows: seq<string>)
    requires Shaped(g)
    ensures |rows| == Rows
  {
    seq(Rows, r requires 0 <= r < Rows => RowText(g[r], Cols))
  }

  lemma {:induction false} JoinSnoc(parts: seq<string>, p: string, sep: char)
    requires |parts| >= 1
    ensures Join(parts + [p], sep) == Join(parts, sep) + [sep] + p
    decreases |parts|
  {
    if |parts| > 1 {
      JoinSnoc(parts[1..], p, sep);
      assert (parts + [p])[1..] == parts[1..] + [p];
    } else {
      assert (parts + [p])[1..] == [p];
    }
  }

  lemma SliceSnoc<T>(s: seq<T>, n: int)
    requires 1 <= n <= |s|
    ensures s[..n] == s[..n - 1] + [s[n - 1]]
  {
  }

  lemma {:induction false} BoardPrefixIsJoin(g: Grid, n: int)
    requires Shaped(g) && 1 <= n <= Rows
    ensures BoardPrefix(g, n) == Join(RowTexts(g)[..n], ',') + Separator(n - 1)
  {
    var rows := RowTexts(g);
    var row := RowText(g[n - 1], Cols);
    assert rows[n - 1] == row;
    if n > 1 {
      BoardPrefixIsJoin(g, n - 1);
      var before := Join(rows[..n - 1], ',');
      assert BoardPrefix(g, n - 1) == before + [','];
      SliceSnoc(rows, n);
      JoinSnoc(rows[..n - 1], row, ',');
      assert BoardPrefix(g, n) == before + [','] + row + Separator(n - 1);
    } else {
      assert rows[..1] == [row];
      assert BoardPrefix(g, 1) == "" + row + Separator(0);
    }
  }

  /** getBoardString is the six row texts joined with commas, each row seven digits. */
  lemma BoardStringIsJoin(g: Grid)
    requires Shaped(g) && InRange(g)
    ensures BoardString(g) == Join(RowTexts(g), ',')
    ensures forall r :: 0 <= r < Rows ==> |RowTexts(g)[r]| == Cols
    ensures forall r, c :: 0 <= r < Rows && 0 <= c < Cols ==> RowTexts(g)[r][c] == CellChar(g[r][c])
  {
    BoardPrefixIsJoin(g, Rows);
    assert RowTexts(g)[..Rows] == RowTexts(g);
    forall r | 0 <= r < Rows
      ensures |RowTexts(g)[r]| == Cols
      ensures forall c :: 0 <= c < Cols ==> RowTexts(g)[r][c] == CellChar(g[r][c])
    {
      RowTextDigits(g[r], Cols);
    }
  }

  lemma {:induction false} BoardPrefixLength(g: Grid, n: int)
    requires Shaped(g) && InRange(g) && 0 <= n <= Rows
    ensures |BoardPrefix(g, n)| == if n < Rows then 8 * n else 8 * n - 1
  {
    if n > 0 {
      BoardPrefixLength(g, n - 1);
      RowTextDigits(g[n - 1], Cols);
    }
  }

  lemma {:induction false} BoardPrefixExtends(g: Grid, n: int, m: int)
    requires Shaped(g) && 0 <= n <= m <= Rows
    ensures BoardPrefix(g, n) <= BoardPrefix(g, m)
    decreases m - n
  {
    if n < m {
      BoardPrefixExtends(g, n, m - 1);
      assert BoardPrefix(g, m) == BoardPrefix(g, m - 1) + (RowText(g[m - 1], Cols) + Separator(m - 1));
    }
  }

  /** getBoardString is 47 characters: six groups of seven digits and five
      commas; the character at row * 8 + col is the digit of board[row][col]. */
  lemma BoardStringLayout(g: Grid)
    requires Shaped(g) && InRange(g)
    ensures |BoardString(g)| == 47
    ensures forall r, c :: 0 <= r < Rows && 0 <= c < Cols ==> BoardString(g)[r * 8 + c] == CellChar(g[r][c])
    ensures forall r :: 0 <= r < Rows - 1 ==> BoardString(g)[r * 8 + 7] == ','
  {
    BoardPrefixLength(g, Rows);
    forall r | 0 <= r < Rows
      ensures forall c :: 0 <= c < Cols ==> BoardString(g)[r * 8 + c] == CellChar(g[r][c])
      ensures r < Rows - 1 ==> BoardString(g)[r * 8 + 7] == ','
    {
      RowLayout(g, r);
    }
  }

  /** Row r of getBoardString starts at r * 8 and is followed by a comma
      unless it is the last row. */
  lemma RowLayout(g: Grid, r: int)
    requires Shaped(g) && InRange(g) && 0 <= r < Rows
    ensures |BoardString(g)| == 47
    ensures forall c :: 0 <= c < Cols ==> BoardString(g)[r * 8 + c] == CellChar(g[r][c])
    ensures r < Rows - 1 ==> BoardString(g)[r * 8 + 7] == ','
  {
    var p := BoardPrefix(g, r + 1);
    BoardPrefixLength(g, Rows);
    BoardPrefixLength(g, r);
    BoardPrefixLength(g, r + 1);
    BoardPrefixExtends(g, r + 1, Rows);
    RowTextDigits(g[r], Cols);
    assert p == BoardPrefix(g, r) + RowText(g[r], Cols) + Separator(r);
    forall c | 0 <= c < Cols ensures BoardString(g)[r * 8 + c] == CellChar(g[r][c]) {
      assert BoardString(g)[r * 8 + c] == p[r * 8 + c];
    }
    if r < Rows - 1 {
      assert BoardString(g)[r * 8 + 7] == p[r * 8 + 7];
    }
  }
}
