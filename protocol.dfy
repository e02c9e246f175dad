/**
 * The line protocol between server and clients: the verbs of
 * src/server/ChessProtocol.java, the lines the ChessConnection senders
 * write, how the server's turn loop reads a client's reply, and how the
 * client decodes CONNECT and MOVE_MADE.
 */
module Protocol {
  import opened Wrappers
  import opened Pieces
  import opened Text

  const CONNECT: string := "CONNECT"
  const STARTGAME: string := "STARTGAME"
  const CHOOSE: string := "CHOOSE"
  const CHOSE: string := "CHOSE"
  const MAKE_MOVE: string := "MAKE_MOVE"
  const MOVE: string := "MOVE"
  const MOVE_MADE: string := "MOVE_MADE"
  const GAME_WON: string := "GAME_WON"
  const GAME_LOST: string := "GAME_LOST"
  const GAME_TIED: string := "GAME_TIED"
  const ERROR: string := "ERROR"

  /** Every verb of the protocol. */
  function Verbs(): set<string>
  {
    {CONNECT, STARTGAME, CHOOSE, CHOSE, MAKE_MOVE, MOVE, MOVE_MADE, GAME_WON, GAME_LOST, GAME_TIED, ERROR}
  }

  /** What the server sends a client, one line per message. */
  datatype Message =
    | Connect(color: Color)
    | StartGame
    | Error
    | MakeMove
    | MoveMade(startRow: int, startCol: int, row: int, col: int)
    | GameLost
    | GameWon
    | GameTied

  /** The verb that opens a message's line. */
  function Verb(m: Message): string
  {
    match m
    case Connect(_) => CONNECT
    case StartGame => STARTGAME
    case Error => ERROR
    case MakeMove => MAKE_MOVE
    case MoveMade(_, _, _, _) => MOVE_MADE
    case GameLost => GAME_LOST
    case GameWon => GAME_WON
    case GameTied => GAME_TIED
  }

  /** The line the ChessConnection sender of `m` writes (without its line terminator). */
  function Format(m: Message): string
  {
    match m
    case Connect(c) => Join([CONNECT, ColorName(c)])
    case MoveMade(a, b, c, d) => Join([MOVE_MADE, IntToString(a), IntToString(b), IntToString(c), IntToString(d)])
    case _ => Verb(m)
  }

  /** The client's reply to MAKE_MOVE (`sendMove`). */
  function ClientMove(startRow: int, startCol: int, row: int, col: int): string
  {
    Join([MOVE, IntToString(startRow), IntToString(startCol), IntToString(row), IntToString(col)])
  }

  /** `ChessConnection.move` as it is written: its format has two `%d`, so only the start square is sent. */
  function ConnectionMove(startRow: int, startCol: int, row: int, col: int): string
  {
    Join([MOVE, IntToString(startRow), IntToString(startCol)])
  }

  /** `parseCommand` applied to the line read: drop newlines, split on single spaces. */
  function ParseCommand(line: string): seq<string>
  {
    Split(RemoveNewlines(line))
  }

  /** How the server's turn loop takes a reply. */
  datatype Command =
    | NotMove                                            // the error path
    | Crash                                              // an exception outside any try: the game thread dies
    | MoveTo(startRow: int, startCol: int, row: int, col: int)

  /**
   * The tokens of a reply as the turn loop reads them: no token at all is an
   * index error; a first token other than MOVE takes the error path; fewer
   * than five tokens, or a coordinate `Integer.parseInt` rejects, is an
   * uncaught exception.
   */
  function ReadMove(tokens: seq<string>): Command
  {
    if |tokens| == 0 then Crash
    else if tokens[0] != MOVE then NotMove
    else if |tokens| < 5 then Crash
    else
      match (ParseInt(tokens[1]), ParseInt(tokens[2]), ParseInt(tokens[3]), ParseInt(tokens[4]))
      case (Some(a), Some(b), Some(c), Some(d)) => MoveTo(a, b, c, d)
      case _ => Crash
  }

  /** The client's `Scanner.next()`: the verb, up to the first space. */
  function VerbOf(line: string): string
  {
    line[..SpaceIndex(line)]
  }

  /** The client's `Scanner.nextLine()` after the verb: the rest of the line. */
  function ArgumentsOf(line: string): string
  {
    line[SpaceIndex(line)..]
  }

  /** The client's `connect`: "WHITE" after trimming is WHITE, anything else BLACK. */
  function DecodeColor(arguments: string): Color
  {
    if Trim(arguments) == "WHITE" then White else Black
  }

  /** The client's `moveMade`: trim, split, and parse the first four fields; `None` where it would throw. */
  function DecodeMoveMade(arguments: string): Option<(int, int, int, int)>
  {
    var fields := Split(Trim(arguments));
    if |fields| < 4 then None
    else
      match (ParseInt(fields[0]), ParseInt(fields[1]), ParseInt(fields[2]), ParseInt(fields[3]))
      case (Some(a), Some(b), Some(c), Some(d)) => Some((a, b, c, d))
      case _ => None
  }
}
