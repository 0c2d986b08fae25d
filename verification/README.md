# Connect 4 game server and client core, in Dafny

This project models the core of a networked Connect 4 system. A Java
server runs one thread per client connection. It keeps four shared
tables:

- the queue of players waiting for an opponent (`waitingPlayers`), with
  the turn time each chose;
- the games in progress (`activeGames`), keyed by a game id taken from
  `gameIdCounter`;
- the game each player is in (`playerToGameId`);
- pending rematch requests (`rematchRequests`).

Each game is a `Connect4Game` object. It holds:

- a 6 x 7 board of discs that fall under gravity;
- the two player ids (a negative second id stands for a bot of difficulty
  `-id`);
- whose turn it is and a counter of consecutive timeouts;
- a finished flag;
- a one-second `java.util.Timer` countdown that calls back the server when
  the turn time runs out.

The server answers the messages CREATE_GAME, REQUEST_GAMES, JOIN_GAME,
MOVE, RETURN_TO_LOBBY, REMATCH, CANCEL_GAME_CREATION and CREATE_BOT_GAME.
It handles turn timeouts: a skipped turn, and a forced draw after two in
a row. It plays the bot's turns with an easy bot (a random valid column)
or a hard bot (win, else block, else centre first). The JavaFX client
draws the board from BOARD_UPDATE, enables clicks on its TURN, and builds
the create-game payload. It also parses LEADERBOARD and filters the user
lists.

The model is organised as follows:

- **`wire.dfy`** (`Wire`): the Java text conventions the wire formats use.
  These are `Integer.toString` and `Integer.parseInt` (with the 32-bit
  range), `String.split` on a one-character separator (trailing empty
  fields dropped), `String.join`, and 32-bit negation.
- **`board.dfy`** (`Board`): the board as a value. It covers gravity, the
  drop `makeMove` performs, lines of four and the `getBoardString` layout.
- **`game.dfy`** (`Game`): the class `Connect4Game`, whose methods update
  its fields and its `array2` board in place. The timer thread becomes a
  timer state, `Disarmed` or `Armed(remaining, callback)`, and a `Tick`
  method for one run of the timer task.
- **`bot.dfy`** (`Bot`): `makeEasyMove` and `makeHardMove`. Both are
  methods with loops, proved against the functions `EasyChoice` and
  `HardChoice`. `Math.random()` becomes a `draw` parameter in [0, 1).
- **`protocol.dfy`** (`Protocol`): message kinds, messages and the
  `"client" + id` tag.
- **`server.dfy`** (`Server`): the class `Lobby`, which holds the server's
  tables, with one method per message case and per timeout handler.
  Instead of writing to sockets, every handler returns its outbox: the
  messages it writes, in order, each with its recipient. The set
  `connected` stands for the ids that have an output stream. A message to
  any other id is skipped, as the Java code skips a `null` stream.
- **`client.dfy`** (`Client`): the class `GameView` (the grid of cell
  styles and the turn flag), the create-game payload, the leaderboard
  parser, and the user-list filters.

The server calls six methods that `Connect4Game.java` does not define:
`copy`, `isValidMove`, `getWinner`, `checkDraw`, `getPlayer2` and
`getTurnDuration`. The model assumes the following for them:

- `copy` makes a value copy of the game.
- `isValidMove(c)` holds when `c` is in range and its top cell is empty.
- `getWinner` returns the disc of the first line of four in row-major
  order, or 0 when there is none.
- `checkDraw` holds when the top row is full and there is no line of four.
- `getPlayer2` and `getTurnDuration` read the fields.

Behaviours of the code a reader may not expect:

- A won or drawn game is neither marked finished nor removed from
  `activeGames`. Only RETURN_TO_LOBBY marks a game finished, and only
  RETURN_TO_LOBBY and the inactivity draw remove one.
- REMATCH is refused when the last game is finished and accepted when it
  is not.
- RETURN_TO_LOBBY does not cancel the game's countdown.
- The inactivity draw removes the game but leaves its players mapped to
  it.
- A refused MOVE (full column, finished game) still cancels the countdown
  and starts no new one.
- A human rematch starts with the constructor's default turn time of
  30 s, not the old game's.
- The hard bot's trial moves pass the literal ids 2 and 1 to `makeMove`,
  which compares them with `player1`. Unless the human is client 1 or
  client 2, both trials drop the bot's disc, so the blocking scan never
  blocks.
- The countdown that MOVE arms runs an inline copy of `handleTurnTimeout`.
  When that copy re-arms the countdown, it passes `handleTurnTimeout` the
  player who just timed out, not the player now to move.

## Model

| member | source | states |
|---|---|---|
| Wire.Neg32 | Project3Server/Project3Server/src/main/java/Server.java:1149 | `-difficulty` on a Java int: the negation for every value except `Integer.MIN_VALUE`, which maps to itself; the result stays in 32-bit range |
| Wire.IntToString | Project3Server/Project3Server/src/main/java/Connect4Game.java:156 | decimal text of an int: non-empty, all digits when non-negative, a leading '-' when negative |
| Wire.ParseInt | Project3Server/Project3Server/src/main/java/Server.java:620 | `Integer.parseInt`: a parsed value is always within the 32-bit range; None stands for NumberFormatException |
| Wire.IntRoundTrip | Project3Server/Project3Server/src/main/java/Server.java:620 | parsing the decimal text of any 32-bit int gives the int back |
| Wire.Join | Project3Server/Project3Server/src/main/java/Server.java:547 | `String.join`: no parts give the empty string, one part is returned as it is, and with more parts the text starts with the first part followed by the separator |
| Wire.Split | Project3Client/Project3Client/src/main/java/GuiClient.java:65 | `String.split` at a one-character separator: a text without the separator comes back whole (even when empty); otherwise the result is a prefix of the fields between separators that, when it has more than one field, does not end with an empty one (trailing empty fields are dropped) |
| Wire.SplitJoin | Project3Client/Project3Client/src/main/java/GuiClient.java:65 | splitting a join at the same separator gives the parts back when no part holds the separator and the last part is not empty |
| Board.EmptyGrid | Project3Server/Project3Server/src/main/java/Connect4Game.java:110-116 | the cleared board has every cell 0 and is well formed |
| Board.LowestEmpty | Project3Server/Project3Server/src/main/java/Connect4Game.java:81-87 | the row makeMove fills is empty and every row below it in that column is occupied; -1 when the column is full |
| Board.LowestEmptyUnique | Project3Server/Project3Server/src/main/java/Connect4Game.java:81-86 | an empty row with every row below it occupied is exactly the row the bottom-up scan stops at |
| Board.FullColumn | Project3Server/Project3Server/src/main/java/Server.java:426 | under gravity a column takes another disc if and only if its top cell is empty |
| Board.Drop | Project3Server/Project3Server/src/main/java/Connect4Game.java:82-83 | dropping writes the disc into the lowest empty cell of the column and leaves every other cell as it was |
| Board.DropWellFormed | Project3Server/Project3Server/src/main/java/Connect4Game.java:79-88 | a drop of disc 1 or 2 keeps cell values in {0,1,2} and keeps gravity |
| Board.DropsWellFormed | Project3Server/Project3Server/src/main/java/Connect4Game.java:79-88 | any sequence of makeMove calls, accepted or refused, keeps the board well formed |
| Board.WinnerFromSpec | Project3Server/Project3Server/src/main/java/Server.java:678 | when the winner scan returns 0, no line starts at any scanned cell; otherwise it returns the disc of a cell that starts a line |
| Board.WinnerIffFour | Project3Server/Project3Server/src/main/java/Server.java:676-678 | there is a winner if and only if the board holds a line of four |
| Board.NewLineIsDropped | Project3Server/Project3Server/src/main/java/Connect4Game.java:90-99 | a line that appears through a drop is made of the dropped disc |
| Board.DropWinner | Project3Server/Project3Server/src/main/java/Server.java:744-746 | after a drop on a board without a line, there is a line if and only if the winner is the dropped disc |
| Board.RowTextDigits | Project3Server/Project3Server/src/main/java/Connect4Game.java:155-157 | a row's text has one digit character per cell, the digit of that cell's value |
| Board.BoardPrefixIsJoin | Project3Server/Project3Server/src/main/java/Connect4Game.java:154-161 | after n rows the builder holds the first n row texts joined with commas, plus the comma that follows a row that is not the last |
| Board.BoardStringIsJoin | Project3Server/Project3Server/src/main/java/Connect4Game.java:152-163 | the board string is the six row texts joined with commas, each seven digits long, one per cell |
| Board.BoardPrefixLength | Project3Server/Project3Server/src/main/java/Connect4Game.java:154-161 | after n rows the builder holds 8n characters, 8n-1 after the last row |
| Board.BoardPrefixExtends | Project3Server/Project3Server/src/main/java/Connect4Game.java:154-161 | the output only grows: the text after n rows is a prefix of the text after m >= n rows |
| Board.BoardStringLayout | Project3Server/Project3Server/src/main/java/Connect4Game.java:152-163 | the board string has 47 characters; position 8r+c is the digit of board[r][c] and position 8r+7 is a comma for the first five rows |
| Board.RowLayout | Project3Server/Project3Server/src/main/java/Connect4Game.java:152-163 | row r's seven digits sit at 8r..8r+6, followed by a comma unless r is the last row |
| Game.TimerStep | Project3Server/Project3Server/src/main/java/Connect4Game.java:54-67 | one run of the timer task fires if and only if the countdown is armed with nothing left; firing, or no countdown, leaves it disarmed; otherwise one second is taken off and the callback kept |
| Game.DisarmedNeverFires | Project3Server/Project3Server/src/main/java/Connect4Game.java:71-77 | a cancelled countdown never runs its callback, however long time passes |
| Game.FiresOnce | Project3Server/Project3Server/src/main/java/Connect4Game.java:47-69 | a countdown armed with d seconds stays silent for d runs, fires on the next run, cancels itself and never fires again |
| Game.OtherOf | Project3Server/Project3Server/src/main/java/Connect4Game.java:173-175 | the other player is always one of the two players, and never the asking player when the two players are distinct |
| Game.OtherTwice | Project3Server/Project3Server/src/main/java/Connect4Game.java:165-175 | switching the turn twice gives the turn back to the same player |
| Game.Connect4Game.constructor | Project3Server/Project3Server/src/main/java/Connect4Game.java:4-22 | a new game has an empty board, a 30-second turn time, no countdown, a zero timeout counter, is not finished and is valid |
| Game.Connect4Game.Copy | Project3Server/Project3Server/src/main/java/Server.java:446 | the copy has its own board array with the same cells and the same fields, and no countdown |
| Game.Connect4Game.SetTurnDuration | Project3Server/Project3Server/src/main/java/Connect4Game.java:24-26 | the turn time becomes the given seconds; nothing else changes |
| Game.Connect4Game.SetPlayers | Project3Server/Project3Server/src/main/java/Connect4Game.java:28-33 | both players are set, and player 1 is both the current player and the starting player; validity is kept |
| Game.Connect4Game.ResetTimeouts | Project3Server/Project3Server/src/main/java/Connect4Game.java:35-37 | the consecutive-timeout counter is 0 afterwards |
| Game.Connect4Game.IncrementTimeouts | Project3Server/Project3Server/src/main/java/Connect4Game.java:39-41 | the consecutive-timeout counter goes up by one |
| Game.Connect4Game.StartTurnTimer | Project3Server/Project3Server/src/main/java/Connect4Game.java:47-69 | any armed countdown is replaced: exactly one is armed afterwards, with the full turn time and the given callback |
| Game.Connect4Game.CancelTurnTimer | Project3Server/Project3Server/src/main/java/Connect4Game.java:71-77 | no countdown is armed afterwards; cancelling when none is armed changes nothing |
| Game.Connect4Game.Tick | Project3Server/Project3Server/src/main/java/Connect4Game.java:54-67 | one run of the timer task counts down, or at zero disarms and reports the armed callback as fired |
| Game.Connect4Game.MakeMove | Project3Server/Project3Server/src/main/java/Connect4Game.java:79-88 | accepted exactly when the column is on the board, the game is not finished and the column is not full; then the mover's disc (1 for player1, 2 otherwise) is dropped, otherwise the board is unchanged; validity is kept |
| Game.Connect4Game.CheckDirection | Project3Server/Project3Server/src/main/java/Connect4Game.java:118-150 | from a disc, checkDirection succeeds if and only if a horizontal, vertical or diagonal line of four starts there |
| Game.Connect4Game.CheckWinner | Project3Server/Project3Server/src/main/java/Connect4Game.java:90-99 | true if and only if the board holds a line of four equal discs |
| Game.Connect4Game.Reset | Project3Server/Project3Server/src/main/java/Connect4Game.java:101-108 | the board is empty, the countdown disarmed, the game unfinished, the counter 0 and the turn back with the starting player; players and turn time are kept |
| Game.Connect4Game.ClearBoard | Project3Server/Project3Server/src/main/java/Connect4Game.java:110-116 | every cell is 0 afterwards |
| Game.Connect4Game.GetBoardString | Project3Server/Project3Server/src/main/java/Connect4Game.java:152-163 | the nested loops build the board string (see Board.BoardStringLayout for its layout) |
| Game.Connect4Game.SwitchTurn | Project3Server/Project3Server/src/main/java/Connect4Game.java:165-167 | the turn passes to the other player of the game; validity is kept |
| Game.Connect4Game.SetGameFinished | Project3Server/Project3Server/src/main/java/Connect4Game.java:177-179 | the finished flag takes the given value |
| Bot.ValidColumns | Project3Server/Project3Server/src/main/java/Server.java:422-429 | exactly the valid columns below n, in strictly increasing order |
| Bot.RandomIndex | Project3Server/Project3Server/src/main/java/Server.java:433 | `(int)(Math.random() * n)` is an index below n |
| Bot.EveryIndexDrawn | Project3Server/Project3Server/src/main/java/Server.java:433 | every index below n is produced by some draw in [0, 1) |
| Bot.EasyChoice | Project3Server/Project3Server/src/main/java/Server.java:421-438 | -1 if and only if no column is valid; otherwise a valid column, the one at the drawn position of the valid columns |
| Bot.MakeEasyMove | Project3Server/Project3Server/src/main/java/Server.java:421-438 | the loop that collects the valid columns returns Bot.EasyChoice for the draw |
| Bot.EasyMoveReachesEvery | Project3Server/Project3Server/src/main/java/Server.java:421-438 | every valid column is the easy bot's choice for some draw |
| Bot.FirstCompleting | Project3Server/Project3Server/src/main/java/Server.java:444-452 | the first column from `from` on whose trial move wins for the given id, with no earlier one winning, or -1 when none does |
| Bot.FirstPriority | Project3Server/Project3Server/src/main/java/Server.java:466-471 | the first position of the centre-first order whose column is valid, with no earlier one valid |
| Bot.PriorityCoversAll | Project3Server/Project3Server/src/main/java/Server.java:466 | the centre-first order lists every column |
| Bot.HardChoice | Project3Server/Project3Server/src/main/java/Server.java:441-475 | -1 if and only if no column is valid; otherwise a valid column |
| Bot.MakeHardMove | Project3Server/Project3Server/src/main/java/Server.java:441-475 | the two trial loops, the priority scan and the easy fallback return Bot.HardChoice |
| Bot.FirstTrialWin | Project3Server/Project3Server/src/main/java/Server.java:444-452 | one trial loop returns Bot.FirstCompleting for its id |
| Bot.CentreFirst | Project3Server/Project3Server/src/main/java/Server.java:466-471 | the priority scan returns the first valid column in centre-first order, or -1 |
| Bot.TrialWins | Project3Server/Project3Server/src/main/java/Server.java:445-450 | a trial on a copy wins exactly when the column is valid and the copy, after the move, has a line whose winner is the id |
| Bot.TrialDiscs | Project3Server/Project3Server/src/main/java/Server.java:447-458 | when the human is client 1, the trials drop discs 2 and 1; when the human is neither client 1 nor client 2, both trials drop the same disc |
| Bot.NoBlockUnlessClientOne | Project3Server/Project3Server/src/main/java/Server.java:455-462 | for a human who is neither client 1 nor client 2, on a board without a line, the blocking trial never wins |
| Bot.TrialsWhenHumanIsClientOne | Project3Server/Project3Server/src/main/java/Server.java:444-462 | when the human is client 1, a trial wins if and only if dropping that id's disc makes a line |
| Bot.BotChoice | Project3Server/Project3Server/src/main/java/Server.java:729-734 | the bot thread's column is -1 if and only if no column is valid, and otherwise valid |
| Protocol.ClientTagInjective | Project3Server/Project3Server/src/main/java/Server.java:484 | two ids share a "client" tag only if they are equal |
| Server.RemoveFirst | Project3Server/Project3Server/src/main/java/Server.java:1007 | `Queue.remove`: unchanged when absent, otherwise the first occurrence removed and the rest in order; the multiset loses exactly one x |
| Server.CancelUndoesCreate | Project3Server/Project3Server/src/main/java/Server.java:1007 | cancelling right after creating, when the client was not queued before, restores the queue |
| Server.GameEntries | Project3Server/Project3Server/src/main/java/Server.java:535-545 | one "Game by name" entry per queued player, in queue order, with "Unknown Player" for clients without a name |
| Server.GameListRoundTrip | Project3Server/Project3Server/src/main/java/Server.java:547 | for a non-empty queue whose names hold no comma, the client's split of GAMELIST gives back the entries |
| Server.EmptyGameList | Project3Server/Project3Server/src/main/java/Server.java:547 | with an empty queue the client gets a single empty entry |
| Server.NewGame | Project3Server/Project3Server/src/main/java/Server.java:565-577 | a fresh, valid game of the two players with the given turn time, player 1 to move, empty board, no countdown |
| Server.BotGameRequest | Project3Server/Project3Server/src/main/java/Server.java:1138-1140 | a CREATE_BOT_GAME payload gives (difficulty, turn time) if and only if it has two fields that both parse as ints |
| Server.Lobby.constructor | Project3Server/Project3Server/src/main/java/Server.java:31-37 | empty tables with the game-id counter at 1 |
| Server.Lobby.OpenGame | Project3Server/Project3Server/src/main/java/Server.java:1142-1145 | a new game enters activeGames under the counter's value, which was unused, and the counter goes up by one |
| Server.Lobby.CreateGame | Project3Server/Project3Server/src/main/java/Server.java:513-527 | the client is appended to the queue and its turn time recorded, with the "waiting" reply; a missing or unparsable time disconnects with no table changed |
| Server.Lobby.ToClientSends | Project3Server/Project3Server/src/main/java/Server.java:664-665 | a write guarded by a non-null stream: a connected client gets every message, in order, addressed to it, and a client without a stream gets nothing |
| Server.Lobby.RequestGames | Project3Server/Project3Server/src/main/java/Server.java:529-551 | the loop sends the comma join of Server.GameEntries for the queue; nothing changes |
| Server.Lobby.JoinGame | Project3Server/Project3Server/src/main/java/Server.java:553-602 | with a queue, its head hosts a new game against the joiner with the head's recorded time (30 when none), both are mapped to it, and both get GAME_STARTED and the host TURN; with no queue, only the "no games" reply |
| Server.Lobby.CancelGameCreation | Project3Server/Project3Server/src/main/java/Server.java:1003-1015 | the client's first queue entry is removed, and the reply says whether there was one |
| Server.Lobby.CreateBotGame | Project3Server/Project3Server/src/main/java/Server.java:1136-1154 | a parsable payload opens a game against bot -difficulty with the given time, maps the client to it and sends "BOT,t" and TURN; otherwise disconnects with nothing changed |
| Server.Lobby.StartBotGame | Project3Server/Project3Server/src/main/java/Server.java:1142-1153 | the bot game is entered and mapped, player2 is the 32-bit negation of the difficulty, and the client gets GAME_STARTED then TURN |
| Server.Lobby.Move | Project3Server/Project3Server/src/main/java/Server.java:604-848 | not in a game: nothing; no game or bad column: disconnect; not your turn: nothing; refused column: board and turn kept but countdown cancelled; accepted: the disc dropped, the counter zeroed and the whole outbox as in Server.Lobby.Conclude (game left active and unfinished); only the sender's game changes |
| Server.Lobby.PlayMove | Project3Server/Project3Server/src/main/java/Server.java:623-626 | a sender who is not the current player changes nothing; otherwise as Server.Lobby.TakeTurn |
| Server.Lobby.TakeTurn | Project3Server/Project3Server/src/main/java/Server.java:629-637 | makeMove's verdict decides: refused leaves board, turn and counter as they were with the countdown cancelled; accepted drops the mover's disc and continues |
| Server.Lobby.Conclude | Project3Server/Project3Server/src/main/java/Server.java:639-673 | after an accepted drop the counter is zero and the outbox is exactly, in order: the board to the mover, the updates of Server.Lobby.BoardUpdates, then the result messages of Server.Lobby.AnnounceOrPass, and nothing else |
| Server.Lobby.BoardUpdates | Project3Server/Project3Server/src/main/java/Server.java:646-673 | in a human game, TIMER_UPDATE with the game's turn duration to the opponent, then the board to the opponent and to the mover, each only when connected; in a bot game, the board to the mover again |
| Server.Lobby.AnnounceOrPass | Project3Server/Project3Server/src/main/java/Server.java:675-774 | Won if and only if a line exists, Drawn if and only if there is no line and the top row is full; both keep the turn with no countdown; a win sends exactly "You win!" to the mover and, in a human game, "You lose!" to a connected opponent ("You win!" when the opponent id is the mover's own), or in a bot game the verdict of the winning disc; a draw sends exactly "Draw!" to the mover and to a connected human opponent; otherwise the turn goes to the other player: to the bot with nothing sent and no countdown, or to the human opponent with exactly TURN naming that player sent to it and to the mover (each when connected, once when they are the same client) and the inline countdown armed |
| Server.Lobby.BotThread | Project3Server/Project3Server/src/main/java/Server.java:722-763 | as Server.BotTurn, and the lobby's tables and other games are untouched; the timeout counter and the game's other fields are kept |
| Server.Lobby.ReturnToLobby | Project3Server/Project3Server/src/main/java/Server.java:851-888 | when mapped to an active game, the game is marked finished and removed, the client and the other player unmapped, the other player told, and the countdown left running; of the game only the finished flag changes (players, turn, countdown, duration, counter and board kept); otherwise nothing changes |
| Server.Lobby.Rematch | Project3Server/Project3Server/src/main/java/Server.java:890-984 | refused unless the client's game is active and not finished; against a bot a new game with the old time starts at once; against a human the request is recorded and a new 30 s game starts only when the opponent asked for the same game, clearing both requests |
| Server.Lobby.BotRematch | Project3Server/Project3Server/src/main/java/Server.java:915-936 | a new bot game with the old turn time under the next id, the client mapped to it, "BOT,t" and TURN sent |
| Server.Lobby.HumanRematch | Project3Server/Project3Server/src/main/java/Server.java:939-983 | the request is recorded; paired only when the opponent's request names the same game, otherwise Waiting with nothing else changed |
| Server.Lobby.StartRematch | Project3Server/Project3Server/src/main/java/Server.java:949-978 | a new 30 s game with the requester first, both players mapped, both requests cleared, GAME_STARTED to each (with their own tag) and TURN to the requester |
| Server.Lobby.TurnTimeout | Project3Server/Project3Server/src/main/java/Server.java:108-174 | the counter goes up; at two the inactivity draw goes to both players and the game leaves activeGames; otherwise the turn passes with the skip notices and a new countdown for the player now to move |
| Server.Lobby.InlineTurnTimeout | Project3Server/Project3Server/src/main/java/Server.java:774-846 | as handleTurnTimeout except for three things. The draw goes to the current player and to the other player of the one who timed out. A TIMER_UPDATE goes to the mover or the opponent first, and the handler aborts when that stream is missing. The new countdown names the player who timed out |
| Server.BotTurn | Project3Server/Project3Server/src/main/java/Server.java:722-763 | the bot plays Bot.BotChoice; on -1 nothing happens; otherwise its disc is dropped as player2, the board goes to the human, then the result, or the turn back to the human with a new handleTurnTimeout countdown; the timeout counter, the players, the finished flag and the duration are kept |
| Server.PlayBotColumn | Project3Server/Project3Server/src/main/java/Server.java:736-758 | the bot's column is played and reported as described for Server.BotTurn, with the timeout counter and the game's other fields kept |
| Server.TimeoutOnGame | Project3Server/Project3Server/src/main/java/Server.java:110-173 | the game-side part of handleTurnTimeout: draw at two consecutive timeouts with turn and countdown kept, otherwise turn passed and countdown re-armed for the new player |
| Server.TellSkip | Project3Server/Project3Server/src/main/java/Server.java:138-169 | the timed-out player is told, and the new player and the other player (once, if different) get the board and the turn |
| Server.InlineTimeoutOnGame | Project3Server/Project3Server/src/main/java/Server.java:776-845 | the game-side part of the inline handler, with the same differences as Server.Lobby.InlineTurnTimeout |
| Client.StyleOf | Project3Client/Project3Client/src/main/java/GuiClient.java:1039-1046 | a cell gets player 1's style if and only if its character is '1', player 2's if and only if it is '2', and none otherwise |
| Client.ReachedExactly | Project3Client/Project3Client/src/main/java/GuiClient.java:1031-1036 | when updateBoard stops at a cell, the cells reached are exactly those before it in row-major order |
| Client.DecodeBoardString | Project3Client/Project3Client/src/main/java/GuiClient.java:1026-1048 | the server's board string splits into six rows, every cell is reached, and each cell shows the style of the disc the server holds there |
| Client.StylesDetermineDiscs | Project3Client/Project3Client/src/main/java/GuiClient.java:1042-1046 | two disc values with the same style are equal, so the view shows the board exactly |
| Client.TurnIsMine | Project3Client/Project3Client/src/main/java/GuiClient.java:1097-1098 | a TURN for client n is this client's turn if and only if n is the id in its PLAYER_ID |
| Client.ClickedColumnParses | Project3Client/Project3Client/src/main/java/GuiClient.java:934 | the column a click sends parses back on the server as the same column |
| Client.RoundSlider | Project3Client/Project3Client/src/main/java/GuiClient.java:733 | `Math.round` of a slider value in [5, 50] is an integer in [5, 50] within half a second of it |
| Client.CreateGameRequest | Project3Client/Project3Client/src/main/java/GuiClient.java:732-750 | the create button: CREATE_GAME exactly for a human opponent and CREATE_BOT_GAME otherwise; the payload starts with the difficulty digit (0 human, 1 easy, 2 hard) and a comma |
| Client.CreateRequestRoundTrip | Project3Client/Project3Client/src/main/java/GuiClient.java:732-750 | the create button sends CREATE_GAME for a human opponent and CREATE_BOT_GAME for a bot; the server parses back the difficulty (1 easy, 2 hard) and the rounded turn time |
| Client.ParseEntry | Project3Client/Project3Client/src/main/java/GuiClient.java:107-112 | a parsed leaderboard entry has 32-bit counts |
| Client.ParseLeaderboard | Project3Client/Project3Client/src/main/java/GuiClient.java:103-114 | LEADERBOARD: the text split at ';' parses if and only if every entry does, giving one row per entry in order |
| Client.ParseEntries | Project3Client/Project3Client/src/main/java/GuiClient.java:105-114 | the entries parse if and only if each one does, giving one row per entry |
| Client.FormatEntries | Project3Server/Project3Server/src/main/java/Server.java:1040-1043 | one formatted entry per row, in order |
| Client.EntryRoundTrip | Project3Client/Project3Client/src/main/java/GuiClient.java:107-112 | a writable row formatted by the server parses back as the same row |
| Client.LeaderboardRoundTrip | Project3Client/Project3Client/src/main/java/GuiClient.java:103-114 | a non-empty leaderboard of writable rows, as the server writes it, is parsed back into the same rows in the same order |
| Client.EmptyLeaderboard | Project3Client/Project3Client/src/main/java/GuiClient.java:105-112 | an empty leaderboard is sent as "" and the client's parse of it fails |
| Client.Others | Project3Client/Project3Client/src/main/java/GuiClient.java:1369-1371 | a name is kept if and only if it is in the list and is not this client's own name |
| Client.OnlineUsers | Project3Client/Project3Client/src/main/java/GuiClient.java:1301-1303 | `showOnlineUsers`: a name is listed if and only if it is online and is not this client's own name, with no more names than online |
| Client.ChatRecipients | Project3Client/Project3Client/src/main/java/GuiClient.java:1366-1381 | the recipients list always starts with "All" |
| Client.OthersAppend | Project3Client/Project3Client/src/main/java/GuiClient.java:1301-1303 | the filter keeps the list's order |
| Client.RecipientsAreAllThenOnline | Project3Client/Project3Client/src/main/java/GuiClient.java:1366-1381 | the recipients are "All" followed by exactly the online-users list, and neither list holds the client's own name |
| Client.NoNameKeepsAll | Project3Client/Project3Client/src/main/java/GuiClient.java:1301-1303 | before the client has a name, no user is filtered out |
| Client.GameView.constructor | Project3Client/Project3Client/src/main/java/GuiClient.java:925-928 | the client's initial view: a 6 x 7 grid of plain cells, not this client's turn and no player id yet (the field initialisers at lines 42 and 45 of the same file) |
| Client.GameView.SetPlayerId | Project3Client/Project3Client/src/main/java/GuiClient.java:79-81 | the PLAYER_ID payload becomes the client's id |
| Client.GameView.UpdateBoard | Project3Client/Project3Client/src/main/java/GuiClient.java:1026-1048 | completes if and only if every row and character exists; each reached cell gets the style of its character and every other cell keeps its old style |
| Client.GameView.HandleTurnChange | Project3Client/Project3Client/src/main/java/GuiClient.java:1097-1107 | it is this client's turn if and only if the TURN payload equals its id |
| Client.GameView.CellClicked | Project3Client/Project3Client/src/main/java/GuiClient.java:931-941 | a click sends MOVE with the column only on this client's turn; in every case the turn flag is off afterwards |

## Left out

- Sockets, object streams and threads are not modelled. Every handler
  runs as one atomic step, and its writes become its returned outbox.
  Races between a MOVE and a countdown firing, and between client
  threads, are not modelled.
- The `java.util.Timer` thread is not modelled. Its runs are
  `Connect4Game.Tick`. The server reacts to a firing by calling the
  handler the callback names: `Server.Lobby.TurnTimeout` or
  `Server.Lobby.InlineTurnTimeout`. No lobby method combines the two
  steps.
- The bot thread's one-second sleep is not modelled. The bot's turn is a
  separate step, `Server.Lobby.BotThread`, taken after MOVE returns
  BotToMove.
- `Math.random()` becomes the `draw` parameter.
- `double` becomes `real` for the slider.
- The `connected` set is fixed for a lobby. Clients connecting and
  disconnecting are not modelled, and neither are IOExceptions on a write.
- An exception in a handler becomes the outcome Disconnected with no table
  changed. The disconnect handler's broadcast and its removal of the
  client from `clients` and `loggedInUsers` are not modelled.
- The `callback.accept` logging to the server window and console output
  are left out. Those paths send nothing to the client.
- Authentication, friends, chat fan-out, the stats file and
  `updateUserStats` are outside the core. The leaderboard's file reading
  and sorting by wins are also outside it; the model starts from the
  sorted rows.
- The message `recipient` field, TEXT and the other message cases are
  outside the core.
- The difficulty field of a CREATE_GAME payload is never parsed by the
  server, and the model does not read it either.
- `clientOutputs` is keyed by the string "client" + id. The model keys
  streams by the integer id; Protocol.ClientTagInjective shows the two
  keyings agree.
- Client.GameView.constructor: a GAME_STARTED that rebuilds the game
  screen is not modelled. The Java client then gets a fresh grid but keeps
  `isMyTurn` and `currentPlayerId`, so a stale turn flag survives into a
  rematch until TURN arrives. The model only has the initial view.
- Wire.ParseInt: accepts only the ASCII digits 0-9. Java's
  `Integer.parseInt` also accepts other Unicode decimal digits, which no
  client of this protocol sends.
- The game counters (`gameIdCounter`, `consecutiveTimeouts`) are
  unbounded integers and do not wrap at 32 bits.
- Server.NewGame: `setPlayers` is called after the game enters the tables
  in the Java code. Nothing reads the game in between, so the model
  creates it fully first.
- Server.Lobby.StartRematch: the Java code creates the game without
  calling `setTurnDuration`, so the model uses the constructor's default
  of 30 s.
- The client's TIMER_UPDATE parsing, label updates and countdown
  animation are not modelled.
- REMATCH_ACCEPTED handling in the client is not modelled; the server
  never sends it.
- Scenes, styling other than the player cell classes, and `resetBoard`
  are UI and are not modelled.
- `copy`, `isValidMove`, `getWinner`, `checkDraw`, `getPlayer2` and
  `getTurnDuration` are not part of `Connect4Game.java`. The model uses
  the assumed definitions given above.
- The `gameInProgress` field is kept but never read, as in the Java code.
