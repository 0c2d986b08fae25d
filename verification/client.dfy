/** The modern client's side of the wire: decoding BOARD_UPDATE into cell
    styles, the turn flag set by TURN and consumed by a cell click, the
    payload of the create-game screen, LEADERBOARD parsing and the two
    user-list filters. Scenes, labels, timers and animations are not part
    of this model. */
module Client {
  import opened Wire
  import opened Board
  import opened Protocol
  import opened Server

  // ---------------------------------------------------------------------
  // The game board view

  /** The player style a cell button carries besides "game-cell". */
  datatype CellStyle = Plain | Player1Style | Player2Style

  /** The style updateBoard gives a cell for character v: '1' and '2' get
      the player styles, any other character none. */
  function StyleOf(v: char): (s: CellStyle)
    ensures s == Player1Style <==> v == '1'
    ensures s == Player2Style <==> v == '2'
  {
    if v == '1' then Player1Style else if v == '2' then Player2Style else Plain
  }

  /** The style a cell holding disc v (0 empty, 1, 2) should show. */
  function StyleOfDisc(v: int): CellStyle
  {
    if v == 1 then Player1Style else if v == 2 then Player2Style else Plain
  }

  /** rows[r].charAt(c) exists: neither the row nor the character is
      out of bounds. */
  predicate Available(rows: seq<string>, r: int, c: int)
    requires 0 <= r && 0 <= c
  {
    r < |rows| && c < |rows[r]|
  }

  /** Every cell up to (r, c) in row-major order is available, so
      updateBoard reaches (r, c) and styles it. */
  predicate Reached(rows: seq<string>, r: int, c: int)
    requires 0 <= r && 0 <= c
  {
    && Available(rows, r, c)
    && forall r', c' :: 0 <= r' < Rows && 0 <= c' < Cols && r' * Cols + c' <= r * Cols + c ==> Available(rows, r', c')
  }

  class GameView {
    /** The 6x7 grid of cell buttons, by row and column. */
    const cells: array2<CellStyle>
    var isMyTurn: bool
    var currentPlayerId: string

    predicate Shaped()
      reads this
    {
      cells.Length0 == Rows && cells.Length1 == Cols
    }

    /** The client's initial view: a grid of plain cells, not this
        client's turn (isMyTurn starts false) and no player id until
        PLAYER_ID arrives (currentPlayerId starts empty). */
    constructor ()
      ensures Shaped() && fresh(cells)
      ensures forall r, c :: 0 <= r < Rows && 0 <= c < Cols ==> cells[r, c] == Plain
      ensures !isMyTurn && currentPlayerId == ""
    {
      cells := new CellStyle[Rows, Cols]((r, c) => Plain);
      isMyTurn := false;
      currentPlayerId := "";
    }

    /** PLAYER_ID: the id the server gave this client. */
    method SetPlayerId(id: string)
      modifies this`currentPlayerId
      ensures currentPlayerId == id
    {
      currentPlayerId := id;
    }

    /** updateBoard: splits the board string at commas and styles cell
        (row, col) after character col of row's segment, row by row; at the
        first missing segment or character it throws, leaving the cells
        styled so far as they are and the rest as they were. completed says
        whether all 42 cells were reached. */
    method UpdateBoard(boardString: string) returns (completed: bool)
      requires Shaped()
      modifies cells
      ensures var rows := Split(boardString, ',');
              && (completed <==> forall r, c :: 0 <= r < Rows && 0 <= c < Cols ==> Available(rows, r, c))
              && forall r, c :: 0 <= r < Rows && 0 <= c < Cols ==>
                   cells[r, c] == if Reached(rows, r, c) then StyleOf(rows[r][c]) else old(cells[r, c])
    {
      var rows := Split(boardString, ',');
      for row := 0 to Rows
        invariant forall r, c :: 0 <= r < row && 0 <= c < Cols ==>
                    Available(rows, r, c) && cells[r, c] == StyleOf(rows[r][c])
        invariant forall r, c :: row <= r < Rows && 0 <= c < Cols ==> cells[r, c] == old(cells[r, c])
      {
        for col := 0 to Cols
          invariant forall r, c :: 0 <= r < row && 0 <= c < Cols ==>
                      Available(rows, r, c) && cells[r, c] == StyleOf(rows[r][c])
          invariant forall c :: 0 <= c < col ==> Available(rows, row, c) && cells[row, c] == StyleOf(rows[row][c])
          invariant forall c :: col <= c < Cols ==> cells[row, c] == old(cells[row, c])
          invariant forall r, c :: row < r < Rows && 0 <= c < Cols ==> cells[r, c] == old(cells[r, c])
        {
          if row >= |rows| || col >= |rows[row]| {
            ReachedExactly(rows, row, col);
            return false;
          }
          cells[row, col] := StyleOf(rows[row][col]);
        }
      }
      ReachedExactly(rows, Rows, 0);
      return true;
    }

    /** handleTurnChange: it is this client's turn exactly when the TURN
        payload is its own id. */
    method HandleTurnChange(playerId: string)
      modifies this`isMyTurn
      ensures isMyTurn <==> playerId == currentPlayerId
    {
      if playerId == currentPlayerId {
        isMyTurn := true;
      } else {
        isMyTurn := false;
      }
    }

    /** A click on a cell of column col: only on this client's turn does it
        send MOVE with the column, after which it is no longer its turn;
        otherwise nothing happens. */
    method CellClicked(col: int) returns (sent: Option<Message>)
      modifies this`isMyTurn
      ensures old(isMyTurn) ==> sent == Some(Message(Move, IntToString(col))) && !isMyTurn
      ensures !old(isMyTurn) ==> sent == None && !isMyTurn
    {
      sent := None;
      if isMyTurn {
        sent := Some(Message(Move, IntToString(col)));
        isMyTurn := false;
      }
    }
  }

  /** When updateBoard stops at (row, col), the cells before it in
      row-major order are exactly those reached. */
  lemma ReachedExactly(rows: seq<string>, row: int, col: int)
    requires 0 <= row <= Rows && 0 <= col < Cols
    requires forall r, c :: 0 <= r < row && 0 <= c < Cols ==> Available(rows, r, c)
    requires forall c :: 0 <= c < col ==> Available(rows, row, c)
    requires row < Rows ==> !Available(rows, row, col)
    ensures forall r, c :: 0 <= r < Rows && 0 <= c < Cols ==>
              (Reached(rows, r, c) <==> r < row || (r == row && c < col))
  {
    forall r, c | 0 <= r < Rows && 0 <= c < Cols
      ensures Reached(rows, r, c) <==> r < row || (r == row && c < col)
    {
      if r < row || (r == row && c < col) {
        forall r', c' | 0 <= r' < Rows && 0 <= c' < Cols && r' * Cols + c' <= r * Cols + c
          ensures Available(rows, r', c')
        {
          assert r' < row || (r' == row && c' < col);
        }
      } else {
        assert row * Cols + col <= r * Cols + c;
      }
    }
  }

  /** The server's board string splits into six segments of seven digits,
      segment r holding row r; so updateBoard styles every cell, and each
      cell after the disc the server's board holds there. */
  lemma {:induction false} DecodeBoardString(g: Grid)
    requires Shaped(g) && InRange(g)
    ensures var rows := Split(BoardString(g), ',');
            && |rows| == Rows
            && forall r, c :: 0 <= r < Rows && 0 <= c < Cols ==>
                 Reached(rows, r, c) && StyleOf(rows[r][c]) == StyleOfDisc(g[r][c])
  {
    BoardStringIsJoin(g);
    var texts := RowTexts(g);
    forall r | 0 <= r < Rows
      ensures Free(texts[r], ',')
    {
      forall c | 0 <= c < |texts[r]|
        ensures texts[r][c] != ','
      {
        assert texts[r][c] == CellChar(g[r][c]);
      }
    }
    assert |texts[Rows - 1]| == Cols;
    SplitJoin(texts, ',');
    forall r, c | 0 <= r < Rows && 0 <= c < Cols
      ensures StyleOf(texts[r][c]) == StyleOfDisc(g[r][c])
    {
      assert texts[r][c] == DigitChar(g[r][c]);
    }
  }

  /** The board styles tell the discs apart: a style shows exactly one
      cell value, so decoding recovers every cell of the server's board. */
  lemma StylesDetermineDiscs(u: int, v: int)
    requires 0 <= u <= 2 && 0 <= v <= 2
    requires StyleOfDisc(u) == StyleOfDisc(v)
    ensures u == v
  {
  }

  /** A TURN naming client n makes it the turn of the client whose
      PLAYER_ID named client m exactly when n == m. */
  lemma TurnIsMine(n: int, m: int)
    ensures ClientTag(n) == ClientTag(m) <==> n == m
  {
    if ClientTag(n) == ClientTag(m) {
      ClientTagInjective(n, m);
    }
  }

  /** The MOVE a click on column col sends reads back on the server as
      col. */
  lemma ClickedColumnParses(col: int)
    requires 0 <= col < Cols
    ensures ParseInt(IntToString(col)) == Some(col)
  {
    IntRoundTrip(col);
  }

  // ---------------------------------------------------------------------
  // Creating a game

  /** The three radio buttons of the settings screen. */
  datatype Opponent = HumanOpponent | EasyAI | HardAI

  /** The difficulty digit the payload carries for each choice. */
  function Difficulty(o: Opponent): int
  {
    match o
    case HumanOpponent => 0
    case EasyAI => 1
    case HardAI => 2
  }

  /** Math.round of the slider's value, which lies in [5, 50]. */
  function RoundSlider(v: real): (t: int)
    requires 5.0 <= v <= 50.0
    ensures 5 <= t <= 50
    ensures t as real - 0.5 <= v < t as real + 0.5
  {
    (v + 0.5).Floor
  }

  /** The Create Game button: "d,t" with d the difficulty and t the
      rounded slider value, sent as CREATE_GAME for a human opponent and
      as CREATE_BOT_GAME otherwise. */
  function CreateGameRequest(o: Opponent, slider: real): (m: Message)
    requires 5.0 <= slider <= 50.0
    ensures m.kind == CreateGame <==> o == HumanOpponent
    ensures m.kind == CreateBotGame <==> o != HumanOpponent
    ensures |m.payload| >= 3 && m.payload[0] == DigitChar(Difficulty(o)) && m.payload[1] == ','
  {
    var selectedTime := RoundSlider(slider);
    var messageContent := IntToString(Difficulty(o)) + "," + IntToString(selectedTime);
    Message(if o == HumanOpponent then CreateGame else CreateBotGame, messageContent)
  }

  /** The server reads the request back: field 0 is the difficulty and
      field 1 the rounded turn time, CREATE_GAME exactly for a human
      opponent, and for a bot game the difficulty and time CREATE_BOT_GAME
      starts the game with. */
  lemma {:induction false} CreateRequestRoundTrip(o: Opponent, slider: real)
    requires 5.0 <= slider <= 50.0
    ensures var m := CreateGameRequest(o, slider);
            var parts := Split(m.payload, ',');
            && (m.kind == CreateGame <==> o == HumanOpponent)
            && (m.kind == CreateBotGame <==> o != HumanOpponent)
            && |parts| == 2
            && ParseInt(parts[0]) == Some(Difficulty(o))
            && ParseInt(parts[1]) == Some(RoundSlider(slider))
            && BotGameRequest(m.payload) == Some((Difficulty(o), RoundSlider(slider)))
  {
    var d := IntToString(Difficulty(o));
    var t := IntToString(RoundSlider(slider));
    assert |d| == 1 && d[0] != ',';
    assert Free(t, ',') by {
      assert forall i :: 0 <= i < |t| ==> IsDigit(t[i]);
    }
    assert d + "," + t == Join([d, t], ',');
    SplitJoin([d, t], ',');
    IntRoundTrip(Difficulty(o));
    IntRoundTrip(RoundSlider(slider));
  }

  // ---------------------------------------------------------------------
  // The leaderboard

  /** One row of the leaderboard. */
  datatype UserStats = UserStats(name: string, wins: int, losses: int, draws: int)

  /** One entry: split at commas into name, wins, losses and draws; None
      when a field is missing or a count does not parse (the exception
      that leaves the leaderboard unshown). */
  function ParseEntry(entry: string): (u: Option<UserStats>)
    ensures u.Some? ==> IsInt32(u.value.wins) && IsInt32(u.value.losses) && IsInt32(u.value.draws)
  {
    var parts := Split(entry, ',');
    if |parts| < 4 then None
    else
      var wins := ParseInt(parts[1]);
      var losses := ParseInt(parts[2]);
      var draws := ParseInt(parts[3]);
      if wins.None? || losses.None? || draws.None? then None
      else Some(UserStats(parts[0], wins.value, losses.value, draws.value))
  }

  /** Every entry parsed, in order; None as soon as one fails. */
  function ParseEntries(entries: seq<string>): (r: Option<seq<UserStats>>)
    ensures r.Some? <==> forall i :: 0 <= i < |entries| ==> ParseEntry(entries[i]).Some?
    ensures r.Some? ==> |r.value| == |entries|
                        && forall i :: 0 <= i < |entries| ==> r.value[i] == ParseEntry(entries[i]).value
  {
    if |entries| == 0 then Some([])
    else
      var head := ParseEntry(entries[0]);
      var tail := ParseEntries(entries[1..]);
      if head.None? || tail.None? then None
      else Some([head.value] + tail.value)
  }

  /** LEADERBOARD: entries separated by ';'. */
  function ParseLeaderboard(data: string): (r: Option<seq<UserStats>>)
    ensures var entries := Split(data, ';');
            && (r.Some? <==> forall i :: 0 <= i < |entries| ==> ParseEntry(entries[i]).Some?)
            && (r.Some? ==> |r.value| == |entries|
                            && forall i :: 0 <= i < |entries| ==> r.value[i] == ParseEntry(entries[i]).value)
  {
    ParseEntries(Split(data, ';'))
  }

  /** How the server writes one row: the four fields joined with ','. */
  function FormatEntry(u: UserStats): string
  {
    Join([u.name, IntToString(u.wins), IntToString(u.losses), IntToString(u.draws)], ',')
  }

  /** How the server writes the leaderboard: the rows joined with ';'. */
  function FormatLeaderboard(stats: seq<UserStats>): (s: string)
  {
    Join(FormatEntries(stats), ';')
  }

  function FormatEntries(stats: seq<UserStats>): (entries: seq<string>)
    ensures |entries| == |stats|
    ensures forall i :: 0 <= i < |stats| ==> entries[i] == FormatEntry(stats[i])
  {
    if |stats| == 0 then [] else [FormatEntry(stats[0])] + FormatEntries(stats[1..])
  }

  /** A row the server can write and the client read back: a name without
      either separator and 32-bit counts. */
  predicate Writable(u: UserStats)
  {
    Free(u.name, ',') && Free(u.name, ';') && IsInt32(u.wins) && IsInt32(u.losses) && IsInt32(u.draws)
  }

  /** A number's text holds neither separator. */
  lemma NumberFree(n: int)
    ensures Free(IntToString(n), ',') && Free(IntToString(n), ';')
  {
    var s := IntToString(n);
    var t := NatToString(if n < 0 then -n else n);
    assert forall i :: 0 <= i < |t| ==> IsDigit(t[i]);
    forall i | 0 <= i < |s|
      ensures s[i] != ',' && s[i] != ';'
    {
      if n < 0 && i > 0 {
        assert s[i] == t[i - 1];
      }
    }
  }

  /** One row reads back as itself. */
  lemma {:induction false} EntryRoundTrip(u: UserStats)
    requires Writable(u)
    ensures ParseEntry(FormatEntry(u)) == Some(u)
    ensures Free(FormatEntry(u), ';') && FormatEntry(u) != ""
  {
    var fields := [u.name, IntToString(u.wins), IntToString(u.losses), IntToString(u.draws)];
    NumberFree(u.wins);
    NumberFree(u.losses);
    NumberFree(u.draws);
    SplitJoin(fields, ',');
    IntRoundTrip(u.wins);
    IntRoundTrip(u.losses);
    IntRoundTrip(u.draws);
    JoinFree(fields, ';');
    assert |FormatEntry(u)| >= |fields[3]| by {
      JoinLength(fields, ',');
    }
  }

  /** Parts without sep joined with another separator hold no sep. */
  lemma {:induction false} JoinFree(parts: seq<string>, sep: char)
    requires forall i :: 0 <= i < |parts| ==> Free(parts[i], sep)
    requires sep != ','
    ensures Free(Join(parts, ','), sep)
    decreases |parts|
  {
    if |parts| > 1 {
      JoinFree(parts[1..], sep);
      var rest := Join(parts[1..], ',');
      assert Join(parts, ',') == parts[0] + [','] + rest;
      assert forall i :: 0 <= i < |parts[0] + [','] + rest| ==> (parts[0] + [','] + rest)[i] != sep by {
        forall i | 0 <= i < |parts[0] + [','] + rest|
          ensures (parts[0] + [','] + rest)[i] != sep
        {
          if i < |parts[0]| {
            assert (parts[0] + [','] + rest)[i] == parts[0][i];
          } else if i > |parts[0]| {
            assert (parts[0] + [','] + rest)[i] == rest[i - |parts[0]| - 1];
          }
        }
      }
    }
  }

  /** A join is at least as long as its last part. */
  lemma {:induction false} JoinLength(parts: seq<string>, sep: char)
    requires |parts| >= 1
    ensures |Join(parts, sep)| >= |parts[|parts| - 1]|
    decreases |parts|
  {
    if |parts| > 1 {
      JoinLength(parts[1..], sep);
    }
  }

  /** The client's parse inverts the server's format for a leaderboard of
      at least one writable row, keeping the order. */
  lemma {:induction false} LeaderboardRoundTrip(stats: seq<UserStats>)
    requires |stats| >= 1
    requires forall i :: 0 <= i < |stats| ==> Writable(stats[i])
    ensures ParseLeaderboard(FormatLeaderboard(stats)) == Some(stats)
  {
    var entries := FormatEntries(stats);
    forall i | 0 <= i < |entries|
      ensures Free(entries[i], ';') && entries[i] != "" && ParseEntry(entries[i]) == Some(stats[i])
    {
      EntryRoundTrip(stats[i]);
    }
    SplitJoin(entries, ';');
    ParsesAll(entries, stats);
  }

  /** Entries that each parse to the matching row parse to the rows. */
  lemma {:induction false} ParsesAll(entries: seq<string>, stats: seq<UserStats>)
    requires |entries| == |stats|
    requires forall i :: 0 <= i < |entries| ==> ParseEntry(entries[i]) == Some(stats[i])
    ensures ParseEntries(entries) == Some(stats)
    decreases |entries|
  {
    if |entries| > 0 {
      ParsesAll(entries[1..], stats[1..]);
      assert ParseEntry(entries[0]) == Some(stats[0]);
      assert stats == [stats[0]] + stats[1..];
    }
  }

  /** With no rows the server sends "", and the client finds one entry
      with a name only, so nothing is shown. */
  lemma EmptyLeaderboard()
    ensures FormatLeaderboard([]) == "" && ParseLeaderboard("") == None
  {
    assert Split("", ';') == [""];
    assert Split("", ',') == [""];
  }

  // ---------------------------------------------------------------------
  // The user lists

  /** The users other than this client's own name, in their order; with
      no name set (null) nothing is filtered out. */
  function Others(users: seq<string>, me: Option<string>): (r: seq<string>)
    ensures forall u :: u in r <==> u in users && me != Some(u)
    ensures |r| <= |users|
  {
    if |users| == 0 then []
    else (if me == Some(users[0]) then [] else [users[0]]) + Others(users[1..], me)
  }

  /** updateChatRecipients: "All", then the other users. */
  function ChatRecipients(users: seq<string>, me: Option<string>): (r: seq<string>)
    ensures |r| >= 1 && r[0] == "All"
  {
    ["All"] + Others(users, me)
  }

  /** showOnlineUsers: the other users, without "All". */
  function OnlineUsers(users: seq<string>, me: Option<string>): (r: seq<string>)
    ensures forall u :: u in r <==> u in users && me != Some(u)
    ensures |r| <= |users|
  {
    Others(users, me)
  }

  /** The filter keeps order: it works on each part of a list on its own. */
  lemma {:induction false} OthersAppend(a: seq<string>, b: seq<string>, me: Option<string>)
    ensures Others(a + b, me) == Others(a, me) + Others(b, me)
    decreases |a|
  {
    if |a| > 0 {
      assert (a + b)[1..] == a[1..] + b;
      OthersAppend(a[1..], b, me);
    } else {
      assert a + b == b;
    }
  }

  /** The recipients list is "All" followed by exactly the online-users
      list, and neither holds the client's own name. */
  lemma RecipientsAreAllThenOnline(users: seq<string>, me: string)
    ensures ChatRecipients(users, Some(me)) == ["All"] + OnlineUsers(users, Some(me))
    ensures me !in OnlineUsers(users, Some(me))
    ensures me != "All" ==> me !in ChatRecipients(users, Some(me))
  {
  }

  /** Without a name nothing is filtered. */
  lemma {:induction false} NoNameKeepsAll(users: seq<string>)
    ensures Others(users, None) == users
    decreases |users|
  {
    if |users| > 0 {
      NoNameKeepsAll(users[1..]);
      assert users == [users[0]] + users[1..];
    }
  }
}
