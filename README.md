# ChessJava core in Dafny

A Dafny model of the core of ChessJava, a two-player networked chess game.
The model covers three parts.

- **The engine** (`src/chess`). A board of 64 squares, the two rosters of
  sixteen pieces, the lists of captured pieces, the movement rules of every
  piece, `movePiece`, and the game-over and winner tests.
- **The server's game thread** (`src/server/ChessGame.java`). The turn loop
  of `run`, the `error` path and the final verdict.
- **The server's connection** (`src/server/ChessConnection.java`). The
  message encoders and the `parseCommand` tokenizer, over a socket
  abstracted as a queue of inputs and a list of delivered lines.

## Structure

- Pieces are values. A board state (`BoardState.BoardState`) holds them in
  an arena `pieces: seq<Piece>`, and a piece's id is its index there.
  - A square holds `Option<PieceId>`.
  - The rosters `black` and `white` are lists of ids in `initColor` order,
    so `getPiece(color, slot)` is an index by `slot.ordinal()`.
  - `takenBlack` and `takenWhite` are lists of ids.
  - The Java objects point at each other (a `Place` at its `Piece`, a
    `Piece` at its board). The ids stand in for those references.
- The movement rules (`Rules`) are predicates on a board state. They follow
  `checkMove`, `checkPiece`, `isForwardSide`, `isDiagonal` and
  `isAdjacent` branch by branch.
- `Chess.ChessBoard` is a class.
  - It has the 64 `Place` objects of the grid (`Places.Place`, whose
    `SetPiece` updates the square in place).
  - It has fields for the arena, the rosters, the captured lists, `myTurn`
    and `status`.
  - Each method is proved to leave the board in the state that a function
    of module `BoardState` computes from the old one.
- `Connections.Connection` is a class over the inputs still to come, the
  lines delivered and a count of `close()` calls.
  - Writing to a closed socket loses the line: `PrintWriter` swallows the
    error.
  - A read failure runs `handle_error`, which closes the socket. The caller
    runs the registered callback.
- `Referee` is the game thread as a function.
  - `Turn` is one pass of the loop body, `Play` is the loop and `Game` is
    the whole of `run`.
  - `run` ends in one of three ways: `Finished` (the loop condition),
    `Errored` (a `break` after `error()`) or `Crashed` (an exception that
    escapes `run` and ends the thread).
  - `Games.ChessGame.Run` is proved to end exactly as `Referee.Game` says.
    Its board and both connections end in the state `Game` computes.
- `RefereeLemmas` proves what each client sees over a whole game: the
  transcript properties of each way out of `run`.
- `Protocol` holds the wire format. `ProtocolLemmas` proves that the
  client decodes what the server writes and that the server decodes what
  the client writes.
- `Text` holds `%d`, `Integer.parseInt`, `replace`, `split(" ")` and
  `trim`. `TextLemmas` holds their round trips.

Where the code and its documentation disagree, the model follows the code.

- **Moves are not checked.** The server's loop never calls `checkMove`. Any
  move from an occupied square to a square on the board is applied and
  echoed, including a move that captures a piece of the mover's own colour
  (`RefereeLemmas.MovesNotChecked`).
- **A failed read closes a socket twice.** A client whose read failed has
  its socket closed by `handle_error` and again at the end of `run`
  (`RefereeLemmas.GameErrored`).
- **An exception closes nothing.** An exception that escapes the loop
  leaves both sockets open (`RefereeLemmas.GameCrashed`).
- **A pawn's double step may capture.** A pawn's double step uses the ray
  walk, which accepts an enemy on the target (`RulesLemmas.PawnShapes`).

## Model

| member | source | states |
|---|---|---|
| Pieces.Moved | src/chess/pieces/Piece.java:117-121 | `move` sets the new coordinates and the moved flag and leaves kind, colour and the dead flag unchanged |
| Pieces.Killed | src/chess/pieces/Piece.java:39-41 | `die` sets the dead flag and changes nothing else |
| Pieces.NameInjective | src/chess/pieces/Piece.java:131-133 | `getName` (the upper-cased class name) tells the piece classes apart |
| Pieces.CreatePieceNames | src/chess/pieces/Piece.java:135-156 | `createPiece` builds a piece exactly for QUEEN, BISHOP, KNIGHT and CASTLE. The piece is alive, unmoved, of the given colour and square, and `getName` of it is the name asked for. Any other name is the `System.exit` branch |
| Places.Place.constructor | src/chess/Place.java:9-15 | a new square is empty and BLACK exactly when its parity is 0 |
| Places.Place.SetPiece | src/chess/Place.java:25-30 | `setPiece` stores the new occupant and returns the previous one |
| BoardState.IdxInjective | src/chess/ChessBoard.java:49 | two board coordinates name the same cell of the grid exactly when they are equal |
| BoardState.GetPiece | src/chess/ChessBoard.java:139-143 | `getPiece` names a piece of the arena. BLACK reads the black roster; every other colour reads the white one |
| BoardState.AddPiece | src/chess/ChessBoard.java:75-81 | `addPiece` keeps the board well formed |
| BoardState.MovePiece | src/chess/ChessBoard.java:126-137 | `movePiece` keeps the board well formed, the arena's size and both rosters, whatever its outcome |
| BoardState.MoveFrom | src/chess/ChessBoard.java:181-189 | `pieceAt` followed by `movePiece` keeps the board well formed, the arena's size and both rosters |
| BoardInitLemmas.AddAllArena | src/chess/ChessBoard.java:75-81 | repeated `addPiece` appends the pieces to the arena and their new ids to their colour's roster, and leaves the captured lists alone |
| BoardInitLemmas.AddAllSquares | src/chess/ChessBoard.java:75-81 | repeated `addPiece` on distinct squares puts each piece on its own square and leaves every other square as it was |
| BoardInitLemmas.LineupDistinct | src/chess/ChessBoard.java:83-104 | the sixteen pieces of one colour start on sixteen distinct squares of the board |
| BoardInitLemmas.LineupsApart | src/chess/ChessBoard.java:83-104 | black pieces start in columns 0-1 and white pieces in columns 6-7 |
| BoardInitLemmas.TwoLineupsArena | src/chess/ChessBoard.java:106-111 | after `initBoard` the arena holds the black pieces, then the white ones. The black roster is ids 0-15, the white roster ids 16-31, and nothing is captured |
| BoardInitLemmas.TwoLineupsSquares | src/chess/ChessBoard.java:106-111 | after `initBoard` each piece stands on its own square and every other square is empty |
| BoardInitLemmas.InitialShape | src/chess/ChessBoard.java:106-111 | the initial board is built from the two lineups in `initBoard` order |
| BoardInitLemmas.ShapedOwner | src/chess/ChessBoard.java:106-111 | every occupied square of the initial board holds a living piece whose coordinates name that square |
| BoardInitLemmas.ShapedConsistent | src/chess/ChessBoard.java:106-111 | the initial board is well formed, has both rosters and is consistent (every living piece is on its square and no square holds a dead piece) |
| BoardInitLemmas.InitialFacts | src/chess/ChessBoard.java:60-111 | after `initBoard` on a new board there are 32 living pieces. Roster slot k of each colour is the k-th piece `initColor` added, and both captured lists are empty |
| BoardInitLemmas.InitialReady | src/chess/ChessBoard.java:106-111 | the initial board can be played on |
| BoardInitLemmas.InitialKingsAndPawns | src/chess/ChessBoard.java:83-104 | `getPiece(c, KING)` is the unmoved king at (4,0) for BLACK and (4,7) for WHITE. The eight pawn slots are pawns on column 1 or 6, one per row, each with its own column as starting column |
| BoardMoveLemmas.MoveFailure | src/chess/ChessBoard.java:126-137 | `movePiece` throws the ChessException exactly when the piece is not on the square its coordinates name. Otherwise it fails exactly when the target is off the board. On failure only the source square has been cleared |
| BoardMoveLemmas.MoveSuccess | src/chess/ChessBoard.java:126-137 | on success the target holds the piece, the piece has the new coordinates and is marked moved, the source is empty unless it is the target, and no other square changes |
| BoardMoveLemmas.MoveCapture | src/chess/ChessBoard.java:117-137 | the previous occupant of the target, of either colour, is killed and appended to its own colour's captured list. No other piece changes. A move onto an empty square captures nothing |
| BoardMoveLemmas.CapturedOnce | src/chess/ChessBoard.java:117-124 | a captured piece appears exactly once in its colour's captured list and not in the other |
| BoardMoveLemmas.MoveMonotone | src/chess/ChessBoard.java:117-137 | no move resets a flag or changes a kind or colour, and the captured lists only grow |
| BoardMoveLemmas.MovePreservesConsistency | src/chess/ChessBoard.java:126-137 | moving a living piece onto the board succeeds on a consistent board and keeps it consistent |
| BoardMoveLemmas.MoveTakenDead | src/chess/ChessBoard.java:117-137 | after a successful move on a consistent board, every captured piece is dead |
| BoardMoveLemmas.DeadNeverOnBoard | src/chess/ChessBoard.java:113-115 | on a consistent board `pieceAt` never returns a dead piece |
| BoardMoveLemmas.WinnerMatchesGameOver | src/chess/ChessBoard.java:158-168 | `getWinner` is NONE exactly when `gameOver` is false. It is WHITE exactly when the black king is dead, and BLACK exactly when only the white king is dead |
| BoardMoveLemmas.MoveFromOutcome | src/chess/ChessBoard.java:181-189 | on a consistent board, moving what stands on the start square succeeds exactly when both squares are on the board and the start square is occupied, whatever the piece's rules say. An off-board or empty start changes nothing. On success the target holds the piece from the start square |
| Chess.ChessBoard.constructor | src/chess/ChessBoard.java:60-73 | `new ChessBoard()` gives 64 empty squares coloured by parity, no pieces, empty rosters and captured lists, not our turn, and no status |
| Chess.ChessBoard.Put | src/chess/Place.java:25-30 | `setPiece` on one square changes that square's occupant only and returns the old one |
| Chess.ChessBoard.AddPiece | src/chess/ChessBoard.java:75-81 | the new state is that of `BoardState.AddPiece` |
| Chess.ChessBoard.InitColor | src/chess/ChessBoard.java:83-104 | the new state adds the colour's sixteen pieces in `initColor` order |
| Chess.ChessBoard.AddPawns | src/chess/ChessBoard.java:88-90 | the pawn loop adds the first eight pieces of the lineup |
| Chess.ChessBoard.AddNext | src/chess/ChessBoard.java:88-103 | one `addPiece` extends the added prefix of the lineup by one piece |
| Chess.ChessBoard.AddMajors | src/chess/ChessBoard.java:93-103 | the eight explicit `addPiece` calls complete the lineup |
| Chess.ChessBoard.InitBoard | src/chess/ChessBoard.java:106-111 | `initBoard` adds the black pieces, then the white ones. On a new board the result is the initial state |
| Chess.ChessBoard.PieceAt | src/chess/ChessBoard.java:113-115 | `pieceAt` reads the occupant of the square from the `Place` objects |
| Chess.ChessBoard.TakePiece | src/chess/ChessBoard.java:117-124 | the new state is that of `BoardState.TakePiece`: the piece is dead and on its colour's captured list |
| Chess.ChessBoard.MovePiece | src/chess/ChessBoard.java:126-137 | the new state and the exception raised are those of `BoardState.MovePiece` |
| Chess.ChessBoard.Land | src/chess/ChessBoard.java:131-136 | the second half of `movePiece`: the new state is that of `BoardState.Land` |
| Chess.ChessBoard.MoveMade | src/chess/ChessBoard.java:181-189 | `moveMade` moves the piece of the start square as `MoveFrom` says. `myTurn` flips on success and only then |
| Chess.ChessBoard.MakeMove | src/chess/ChessBoard.java:191-194 | it is this player's turn, and nothing else changes |
| Chess.ChessBoard.Start | src/chess/ChessBoard.java:256-259 | it is not this player's turn, and nothing else changes |
| Chess.ChessBoard.SetStatus | src/chess/ChessBoard.java:207-237 | `gameWon`, `gameLost`, `gameTied` and `error` record the status, and nothing else changes |
| Chess.ChessBoard.Check | src/chess/ChessBoard.java:145-156 | `check(c)` is true exactly when a living non-king piece of the other colour accepts c's king square |
| RulesLemmas.WalkFrom | src/chess/pieces/Piece.java:80-95 | the loop of `checkPiece` from step m on accepts exactly the targets some k >= m steps along the ray, with every square before them empty and the target empty or an enemy |
| RulesLemmas.CheckPieceIff | src/chess/pieces/Piece.java:80-95 | `checkPiece(row, col, dr, dc)` holds exactly when the target is k >= 1 steps along (dr, dc), every square before it is empty, and the target is empty or holds an enemy |
| RulesLemmas.SlideGeometry | src/chess/pieces/Piece.java:80-95 | a slide of k steps ends k squares away along each moving component of the direction |
| RulesLemmas.RayTarget | src/chess/pieces/Piece.java:80-95 | an accepted ray names the number of steps to the target |
| RulesLemmas.ForwardSideLine | src/chess/pieces/Piece.java:97-105 | `isForwardSide` only reaches squares that share exactly one of the piece's row and column |
| RulesLemmas.DiagonalLine | src/chess/pieces/Piece.java:107-115 | `isDiagonal` only reaches squares on the piece's diagonals, never its own square |
| RulesLemmas.RayStopsAtBlocker | src/chess/pieces/Piece.java:80-95 | a sliding piece cannot jump: an occupied square j steps along the ray bounds how far it reaches |
| RulesLemmas.OneStepRay | src/chess/pieces/Piece.java:80-95 | one step in any direction onto an empty or enemy square is accepted |
| RulesLemmas.RayUnique | src/chess/pieces/Piece.java:80-95 | a square k steps along one direction is reached by the ray in that direction only |
| RulesLemmas.BeyondBlockerRejected | src/chess/pieces/Piece.java:80-115 | no orthogonal or diagonal ray reaches a square beyond an occupied one |
| RulesLemmas.FirstBlockerAccepted | src/chess/pieces/Piece.java:80-95 | the first occupied square of a clear ray is accepted when it holds an enemy |
| RulesLemmas.PawnShapes | src/chess/pieces/Pawn.java:14-34 | `Pawn.checkMove` accepts exactly three moves. The first is one step forward onto an empty square. The second is a double step from the starting column, over an empty square, onto a square that is empty or holds an enemy. The third is one step diagonally forward onto an enemy. Forward is toward lower columns for WHITE and higher ones otherwise |
| RulesLemmas.KnightShape | src/chess/pieces/Knight.java:11-25 | the knight's jumps are the squares two away on one axis and one away on the other |
| RulesLemmas.KnightJumpSymmetric | src/chess/pieces/Knight.java:11-25 | a knight's jump can be jumped back |
| RulesLemmas.KnightIgnoresPath | src/chess/pieces/Knight.java:11-25 | the knight looks only at its target: boards that agree on the target square agree on the move |
| RulesLemmas.KnightAtMostEight | src/chess/pieces/Knight.java:11-25 | a knight accepts one of at most eight squares, never its own |
| RulesLemmas.KingShape | src/chess/pieces/King.java:12-18 | `King.checkMove` accepts exactly the neighbouring squares that are empty or hold an enemy. There is no castling |
| RulesLemmas.KingAtMostEight | src/chess/pieces/King.java:12-18 | a king accepts one of at most eight squares, never its own, and never one two columns away |
| RulesLemmas.KingIgnoresMoved | src/chess/pieces/King.java:12-18 | the king's rule does not depend on whether the king has moved |
| RulesLemmas.BishopDiagonal | src/chess/pieces/Bishop.java:11-17 | every square a bishop accepts is on one of its diagonals |
| RulesLemmas.QueenIsCastleOrBishop | src/chess/pieces/Queen.java:11-17 | the queen accepts exactly what a castle or a bishop on its square would accept |
| RulesLemmas.QueenLines | src/chess/pieces/Queen.java:11-17 | every square a queen accepts shares exactly one of its row and column, or lies on one of its diagonals |
| RulesLemmas.QueenCoversKing | src/chess/pieces/King.java:12-18 | every square a king accepts is one a queen on the king's square reaches |
| RulesLemmas.CheckMoveTarget | src/chess/pieces/Piece.java:47-52 | every accepted move ends on an empty square or on an enemy |
| RulesLemmas.NeverOwnSquare | src/chess/pieces/Piece.java:47-115 | on a consistent board no living piece may move onto its own square |
| TextLemmas.NatToStringValue | src/server/ChessConnection.java:136-138 | the digits `%d` writes for a natural number read back as that number |
| TextLemmas.IntToStringField | src/server/ChessConnection.java:136-138 | `%d` writes one non-empty field with no space and no newline |
| TextLemmas.ParseIntRoundTrip | src/server/ChessGame.java:70-73 | `Integer.parseInt` reads back every `int` that `%d` writes |
| TextLemmas.FieldsJoin | src/server/ChessConnection.java:104-106 | splitting space-free fields joined by single spaces gives the fields back, empty ones included |
| TextLemmas.SplitJoin | src/server/ChessConnection.java:104-106 | `split(" ")` of two or more space-free fields joined by spaces, the last one non-empty, gives the fields back |
| TextLemmas.RemoveNoNewlines | src/server/ChessConnection.java:104-106 | `replace("\n", "")` leaves a line without newlines alone |
| ProtocolLemmas.FormatFields | src/server/ChessConnection.java:108-159 | every line the server writes is non-empty, has no newline, and starts and ends with a visible character |
| ProtocolLemmas.FormatVerb | src/server/ChessConnection.java:108-159 | the first token of every line the server writes is that message's verb |
| ProtocolLemmas.VerbDistinguishes | src/server/ChessProtocol.java:20-76 | messages of different kinds have different verbs |
| ProtocolLemmas.ConnectLine | src/server/ChessConnection.java:113-115 | the CONNECT line is the verb, one space and the colour's name |
| ProtocolLemmas.ConnectRoundTrip | src/server/ChessConnection.java:113-115 | the client decodes the colour (WHITE or BLACK) the server assigned |
| ProtocolLemmas.ConnectNoColor | src/server/ChessConnection.java:113-115 | a CONNECT for NONE is decoded by the client as BLACK |
| ProtocolLemmas.MoveMadeLine | src/server/ChessConnection.java:136-138 | the MOVE_MADE line is the verb and the four coordinates, joined by single spaces |
| ProtocolLemmas.MoveMadeRoundTrip | src/server/ChessConnection.java:136-138 | for 32-bit coordinates the client decodes exactly the move the server reported |
| ProtocolLemmas.ClientMoveRoundTrip | src/server/ChessGame.java:52-73 | the client's MOVE reply, run through `parseCommand` and the four `parseInt` calls, gives back the same four coordinates |
| ProtocolLemmas.ConnectionMoveCrashes | src/server/ChessConnection.java:166-168 | `move` as written sends three tokens, and the turn loop throws on the fourth `move[3]` |
| ProtocolLemmas.OtherVerbIsNotMove | src/server/ChessGame.java:61-68 | a reply whose first token is not MOVE takes the error path |
| Connections.ReadCommand | src/server/ChessConnection.java:53-63 | `readCommand` consumes one input. An exhausted stream gives `null`. A line is returned unchanged. On an IOException `handle_error` closes the socket once and "" is returned. Nothing is written |
| Connections.Connection.constructor | src/server/ChessConnection.java:27-39 | a new connection has no callback, nothing written and an open socket |
| Connections.Connection.SetError | src/server/ChessConnection.java:45-47 | `setError` registers the callback and changes nothing else |
| Connections.Connection.WriteCommand | src/server/ChessConnection.java:70-72 | a line written while the socket is open is delivered; one written after `close()` is lost |
| Connections.Connection.CloseSocket | src/server/ChessConnection.java:77-84 | `close()` is counted and changes nothing else |
| Connections.Connection.ReadLine | src/server/ChessConnection.java:53-63 | the read is that of `ReadCommand`. The callback runs exactly when the read failed and a callback is registered |
| Connections.Connection.ParseCommand | src/server/ChessConnection.java:104-106 | `parseCommand` returns the tokens of the line read. A `null` line gives no tokens (the NullPointerException) |
| Connections.Connection.Startgame | src/server/ChessConnection.java:108 | writes STARTGAME |
| Connections.Connection.Connect | src/server/ChessConnection.java:113-115 | writes CONNECT and the colour's name |
| Connections.Connection.Error | src/server/ChessConnection.java:120-122 | writes ERROR |
| Connections.Connection.MakeMove | src/server/ChessConnection.java:127-129 | writes MAKE_MOVE |
| Connections.Connection.MoveMade | src/server/ChessConnection.java:136-138 | writes MOVE_MADE and the four coordinates |
| Connections.Connection.GameLost | src/server/ChessConnection.java:143-145 | writes GAME_LOST |
| Connections.Connection.GameWon | src/server/ChessConnection.java:150-152 | writes GAME_WON |
| Connections.Connection.GameTied | src/server/ChessConnection.java:157-159 | writes GAME_TIED |
| Connections.Connection.Move | src/server/ChessConnection.java:166-168 | writes MOVE and, as the format string is written, only the start square |
| Referee.Turn | src/server/ChessGame.java:47-86 | one pass of the loop body keeps the board well formed. When the loop goes on, one more input has been consumed; when it stops, the game has not finished normally |
| Referee.Respond | src/server/ChessGame.java:52-86 | handling the reply keeps the board well formed and consumes nothing more |
| Referee.NextMover | src/server/ChessGame.java:46 | `(moveNum + 1) % 2` is the other player |
| Referee.Play | src/server/ChessGame.java:46-87 | the loop keeps the board well formed and, when it ends by its own condition, a king is dead |
| Referee.Game | src/server/ChessGame.java:38-106 | `run` keeps the board well formed |
| Games.NewBoard | src/server/ChessGame.java:25-33 | the game's board is a new `ChessBoard` after `initBoard`: the initial state |
| Games.ChessGame.constructor | src/server/ChessGame.java:25-33 | a game over two distinct connections with a freshly initialised board and `error` unset |
| Games.ChessGame.Run | src/server/ChessGame.java:38-106 | `run` ends as `Referee.Game` computes, with that board and both connections in that state. `error` is set exactly on the error path |
| Games.ChessGame.Open | src/server/ChessGame.java:40-44 | STARTGAME to both, then both callbacks registered |
| Games.ChessGame.TakeTurn | src/server/ChessGame.java:47-86 | one pass of the loop body ends as `Referee.Turn` says |
| Games.ChessGame.Exchange | src/server/ChessGame.java:47-59 | MAKE_MOVE to the mover, then its reply read. When the read failed, the callback has run `error()` |
| Games.ChessGame.Advance | src/server/ChessGame.java:70-86 | a well-formed MOVE is applied and echoed, or takes the error path, as `Referee.Respond` says |
| Games.ChessGame.Apply | src/server/ChessGame.java:75-82 | `pieceAt` and `movePiece` inside the try: the board and the error are those of `MoveFrom` |
| Games.ChessGame.Finish | src/server/ChessGame.java:89-105 | the verdict unless `error` is set, then both sockets closed |
| Games.ChessGame.Verdict | src/server/ChessGame.java:89-101 | GAME_WON to `clients[0]` if BLACK won, to `clients[1]` if WHITE won, and the other GAME_LOST; GAME_TIED to both otherwise |
| Games.ChessGame.CloseAll | src/server/ChessGame.java:104-105 | both sockets closed |
| Games.ChessGame.MoveMade | src/server/ChessGame.java:85-86 | MOVE_MADE to `clients[0]`, then `clients[1]` |
| Games.ChessGame.Error | src/server/ChessGame.java:111-115 | `error()` sets the flag and sends ERROR to `clients[0]`, then `clients[1]` |
| RefereeLemmas.FormatTally | src/server/ChessConnection.java:108-159 | each server message counts as exactly its own kind in a client's transcript |
| RefereeLemmas.WriteTally | src/server/ChessConnection.java:70-72 | a write to an open client adds its line to the transcript. A write to a closed client changes nothing |
| RefereeLemmas.PromptStep | src/server/ChessGame.java:47-59 | MAKE_MOVE and the read change only the mover's connection. The mover hears the prompt, and a failed read also closes its socket |
| RefereeLemmas.RespondStep | src/server/ChessGame.java:52-86 | after the reply the loop goes on with both transcripts in step, or stops as `Ends` says |
| RefereeLemmas.TurnStep | src/server/ChessGame.java:46-87 | one pass of the loop keeps the transcripts in step for the other player, or leaves the loop as `Ends` says |
| RefereeLemmas.PlayEnds | src/server/ChessGame.java:46-87 | however the loop ends, both transcripts open with STARTGAME and carry the same echoes, and no verdict has been sent. On the error path each client either heard one ERROR or had its socket closed by its failed read, never both. On every other path no ERROR was sent and no socket closed |
| RefereeLemmas.GameShape | src/server/ChessGame.java:89-106 | after the loop, `run` adds nothing on a crash, closes both sockets after an error, and otherwise sends the verdict and then closes both |
| RefereeLemmas.GameTranscripts | src/server/ChessGame.java:38-106 | on every way out of `run`, each transcript opens with STARTGAME. Both clients saw the same MOVE_MADE lines in the same order. `clients[0]` was prompted as often as `clients[1]` or once more |
| RefereeLemmas.VerdictFor | src/server/ChessGame.java:89-101 | the verdict each seat receives is one of GAME_WON, GAME_LOST and GAME_TIED |
| RefereeLemmas.AnnounceSeats | src/server/ChessGame.java:89-101 | BLACK's win is `clients[0]`'s and WHITE's is `clients[1]`'s. Anything else is a tie for both |
| RefereeLemmas.VerdictTally | src/server/ChessGame.java:89-101 | the verdict adds one GAME_* line to each open client and nothing else |
| RefereeLemmas.GameErrored | src/server/ChessGame.java:38-106 | on the error path no verdict is sent. Each client received one ERROR and was closed once. The exception is a client whose read failed: it received no ERROR and was closed twice. At most one client's read failed |
| RefereeLemmas.GameCrashed | src/server/ChessGame.java:61-73 | an exception out of the loop ends `run` with no ERROR, no verdict and neither socket closed |
| RefereeLemmas.GameFinished | src/server/ChessGame.java:46-106 | a game that left the loop by its condition has a winner, and the tie branch is unreachable. The winner's client hears GAME_WON last and the other GAME_LOST. Neither received an ERROR, and each socket was closed once. WHITE wins exactly when the black king is dead |
| RefereeLemmas.FinishedLoop | src/server/ChessGame.java:46-87 | a loop that finished leaves both sockets open, with no ERROR and no verdict, over a board where a king is dead |
| RefereeLemmas.TurnLines | src/server/ChessGame.java:47-86 | a turn that lets the loop go on sends the mover MAKE_MOVE then the echo, and the other client the same echo only |
| RefereeLemmas.MoveReplyOutcome | src/server/ChessGame.java:61-86 | a well-formed MOVE on a consistent board is applied exactly when the start square is on the board and occupied and the target is on the board. The echo then goes to both; otherwise `error()` sends ERROR to both |
| RefereeLemmas.KingJumpRejected | src/chess/pieces/King.java:12-18 | `King.checkMove` rejects a jump of four squares |
| RefereeLemmas.MovesNotChecked | src/server/ChessGame.java:75-86 | the server never consults `checkMove`: on the initial board the black king's move from (4,0) to (4,4), which `King.checkMove` rejects, is applied and the loop goes on |

## Findings

| source | as written | input that shows it | evidently intended | confidence | as-written member | corrected member |
|---|---|---|---|---|---|---|
| src/server/ChessConnection.java:166-168 | `move` formats `"%s %d %d"` with four coordinates, so only MOVE and the start square are sent | `move(1, 6, 1, 5)` sends `MOVE 1 6`; the turn loop's `move[3]` then throws and ends the game thread | `"%s %d %d %d %d"`, as the client's own `sendMove` writes it (src/gui/ChessClient.java:284) | not executed | ProtocolLemmas.ConnectionMoveCrashes | ProtocolLemmas.ClientMoveRoundTrip |

## Left out

- The GUI (`src/gui`) is not part of this model. It includes the client's reading loop and promotion buttons. The model keeps only the client's decoding of CONNECT and MOVE_MADE replies and the line written by `sendMove`, which the round-trip lemmas need.
- `ServerListener` and `ChessServer` are not modelled. They accept two sockets and start the game thread. From `ChessServer` only the fact that `clients[0]` is told BLACK is used, through the verdict's seat order.
- Observers (`addObserver`, `notifyObservers`, `Platform.runLater`), piece images and `ChessBoard.close` are left out; `close` only notifies observers. None of them changes the board's state.
- The getters `isMyTurn`, `getStatus`, `get`, `Piece.dead`, `getColor`, `getRow`, `getCol`, `getMoved`, `getParent`, `Place.getPiece` and `Place.getColor` are left out: each reads a field that the model exposes directly.
- The `inCheck` field of `ChessBoard` is declared but never assigned or read, and it is not modelled.
- Pawn promotion (`PawnInterrupt`, the CHOOSE exchange) is left out. The server never sends CHOOSE, and `Piece.move` never throws in the code shown.
- Rules.CastleCheck: `Castle.java` is not part of this model. The castle's rule is taken to be the base `checkMove` together with `isForwardSide`, the same rule the queen combines with `isDiagonal`.
- The socket, its streams and the threads are abstracted. A connection is a queue of inputs (lines, or an IOException) and the list of lines that reached the client. A `close()` that fails only prints and is counted like any other.
- The message printed by `System.out`, `System.err` and `printStackTrace` is left out.
- `Integer.parseInt` is modelled on ASCII digits with an optional '-' or '+'. Java also accepts other Unicode decimal digits, which the model rejects; such a reply ends the game as a crash rather than a move.
- Java objects and references are modelled by arena ids. `movePiece` is given the id of a piece in the arena, where the source takes a reference to a piece; a `null` piece is the empty square that `MoveFrom` rejects first.
- Chess.ChessBoard.InitColor: the source's single method is split into the pawn loop (`AddPawns`) and the eight explicit `addPiece` calls (`AddMajors`), with `AddNext` as one step. The order of additions is the source's.
- Games.ChessGame.Run: the loop body is split into `TakeTurn`, `Exchange`, `Advance` and `Apply`, and the code around the loop into `Open` and `Finish`. The callback that `handle_error` runs is returned to the game as a flag and then runs `error()` there. The order of writes is the source's.
- The spawning of the game thread and its concurrency with the server's listener are left out. Each game is a single thread over two connections.
- Referee.Game: a thread killed by an exception (`Crashed`) ends with the sockets unclosed and nothing more sent, as the code does. The model does not describe what the JVM prints or what the clients then see on their side.
- The client's `Scanner.next()` is modelled as the text up to the first space, and `nextLine()` as the rest of the line. A real `Scanner` skips leading whitespace and splits on any whitespace. The server's lines never start with whitespace or hold any other whitespace, so the two agree on them.
- Chess.ChessBoard.SetStatus: in Java the message of `error(arguments)` is stored on the enum constant `Status.ERROR` itself, which every board of the JVM shares, so each board sees the last message any board set. The model keeps the message in the board's own `Error(message)` status and does not capture that sharing.
- Connections.Connection.constructor: the branch where wrapping the socket's streams throws an IOException is not modelled. There `handle_error` closes the socket and leaves both streams null, so the first `startgame()` of `run` throws a NullPointerException and the game thread dies having sent nothing. The model's connection always starts open with working streams.
