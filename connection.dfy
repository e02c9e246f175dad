/**
 * One client connection of the server (src/server/ChessConnection.java).
 * The socket is abstracted: what the client will send is a queue of inputs,
 * what reaches the client is the list of lines written while the socket was
 * open, and `close()` is counted.
 */
module Connections {
  import opened Wrappers
  import opened Pieces
  import opened Text
  import opened Protocol

  /** What one `readLine` on the socket yields: a line, or an IOException. An exhausted queue is end of stream (`null`). */
  datatype Input = Line(text: string) | ReadFailure

  /** A connection as a value: inputs still to come, lines delivered, and how often `close()` ran. */
  datatype Peer = Peer(inbox: seq<Input>, sent: seq<string>, closes: nat)

  predicate Closed(p: Peer)
  {
    p.closes > 0
  }

  /** `writeCommand`: println on the socket's PrintWriter, which swallows the error of a closed socket, so the line is lost. */
  function Write(p: Peer, line: string): Peer
  {
    if Closed(p) then p else p.(sent := p.sent + [line])
  }

  /** `close()`. */
  function Close(p: Peer): Peer
  {
    p.(closes := p.closes + 1)
  }

  /** What `readCommand` hands back: a line, or `null` at end of stream. */
  datatype Read = Got(line: string) | NullLine

  /** A read: its result, the connection after it, and whether `handle_error` ran. */
  datatype Reception = Reception(result: Read, peer: Peer, failed: bool)

  /**
   * `readCommand`: the next line; `null` at end of stream; on an IOException
   * `handle_error` closes the socket and the method returns "".
   */
  function ReadCommand(p: Peer): (r: Reception)
    ensures r.peer.sent == p.sent
    ensures p.inbox == [] <==> r.result == NullLine
    ensures p.inbox != [] ==> r.peer.inbox == p.inbox[1..]
    ensures r.failed <==> p.inbox != [] && p.inbox[0].ReadFailure?
    ensures r.failed ==> r.result == Got("") && r.peer.closes == p.closes + 1
    ensures !r.failed ==> r.peer.closes == p.closes
    ensures forall text :: p.inbox != [] && p.inbox[0] == Line(text) ==> r.result == Got(text)
  {
    if p.inbox == [] then Reception(NullLine, p, false)
    else match p.inbox[0]
      case Line(text) => Reception(Got(text), p.(inbox := p.inbox[1..]), false)
      case ReadFailure => Reception(Got(""), Close(p).(inbox := p.inbox[1..]), true)
  }

  /** The tokens `parseCommand` returns for a read, or `None` where `null.replace` throws. */
  function Tokens(r: Read): Option<seq<string>>
  {
    match r
    case NullLine => None
    case Got(line) => Some(ParseCommand(line))
  }

  class Connection {
    /** What the client will still send. */
    var inbox: seq<Input>
    /** The lines that reached the client. */
    var sent: seq<string>
    /** How many times `close()` ran. */
    var closes: nat
    /** Whether `runOnError` is set. */
    var handlerSet: bool

    function View(): Peer
      reads this
    {
      Peer(inbox, sent, closes)
    }

    /** A fresh connection with no callback, nothing written and the socket open. */
    constructor(inputs: seq<Input>)
      ensures View() == Peer(inputs, [], 0) && !handlerSet
    {
      inbox := inputs;
      sent := [];
      closes := 0;
      handlerSet := false;
    }

    /** `setError`: register the callback `handle_error` runs. */
    method SetError()
      modifies this
      ensures handlerSet && View() == old(View())
    {
      handlerSet := true;
    }

    method WriteCommand(line: string)
      modifies this
      ensures View() == Write(old(View()), line) && handlerSet == old(handlerSet)
    {
      if closes == 0 {
        sent := sent + [line];
      }
    }

    method CloseSocket()
      modifies this
      ensures View() == Close(old(View())) && handlerSet == old(handlerSet)
    {
      closes := closes + 1;
    }

    /**
     * `readCommand`. `callback` is true when `handle_error` ran with a
     * registered `runOnError`; the caller then runs the callback.
     */
    method ReadLine() returns (r: Read, callback: bool)
      modifies this
      ensures var rc := ReadCommand(old(View()));
              r == rc.result && View() == rc.peer && callback == (rc.failed && handlerSet)
      ensures handlerSet == old(handlerSet)
    {
      if inbox == [] {
        return NullLine, false;
      }
      var next := inbox[0];
      inbox := inbox[1..];
      match next
      case Line(text) =>
        r, callback := Got(text), false;
      case ReadFailure =>
        CloseSocket();
        r, callback := Got(""), handlerSet;
    }

    /** `parseCommand`: the tokens of the line read, or `None` where reading `null` throws. */
    method ParseCommand() returns (tokens: Option<seq<string>>, callback: bool)
      modifies this
      ensures var rc := ReadCommand(old(View()));
              tokens == Tokens(rc.result) && View() == rc.peer && callback == (rc.failed && handlerSet)
      ensures handlerSet == old(handlerSet)
    {
      var r;
      r, callback := ReadLine();
      match r
      case NullLine =>
        tokens := None;
      case Got(line) =>
        tokens := Some(Protocol.ParseCommand(line));
    }

    /** Send one of the server's messages. */
    method Send(m: Message)
      modifies this
      ensures View() == Write(old(View()), Format(m)) && handlerSet == old(handlerSet)
    {
      WriteCommand(Format(m));
    }

    method Startgame()
      modifies this
      ensures View() == Write(old(View()), Format(Message.StartGame)) && handlerSet == old(handlerSet)
    {
      WriteCommand(STARTGAME);
    }

    method Connect(color: Color)
      modifies this
      ensures View() == Write(old(View()), Format(Message.Connect(color))) && handlerSet == old(handlerSet)
    {
      WriteCommand(Join([CONNECT, ColorName(color)]));
    }

    method Error()
      modifies this
      ensures View() == Write(old(View()), Format(Message.Error)) && handlerSet == old(handlerSet)
    {
      WriteCommand(ERROR);
    }

    method MakeMove()
      modifies this
      ensures View() == Write(old(View()), Format(Message.MakeMove)) && handlerSet == old(handlerSet)
    {
      WriteCommand(MAKE_MOVE);
    }

    method MoveMade(startRow: int, startCol: int, row: int, col: int)
      modifies this
      ensures View() == Write(old(View()), Format(Message.MoveMade(startRow, startCol, row, col)))
      ensures handlerSet == old(handlerSet)
    {
      WriteCommand(Join([MOVE_MADE, IntToString(startRow), IntToString(startCol), IntToString(row), IntToString(col)]));
    }

    method GameLost()
      modifies this
      ensures View() == Write(old(View()), Format(Message.GameLost)) && handlerSet == old(handlerSet)
    {
      WriteCommand(GAME_LOST);
    }

    method GameWon()
      modifies this
      ensures View() == Write(old(View()), Format(Message.GameWon)) && handlerSet == old(handlerSet)
    {
      WriteCommand(GAME_WON);
    }

    method GameTied()
      modifies this
      ensures View() == Write(old(View()), Format(Message.GameTied)) && handlerSet == old(handlerSet)
    {
      WriteCommand(GAME_TIED);
    }

    /** `move` as written: the start square only (see `Protocol.ConnectionMove`). */
    method Move(startRow: int, startCol: int, row: int, col: int)
      modifies this
      ensures View() == Write(old(View()), ConnectionMove(startRow, startCol, row, col))
      ensures handlerSet == old(handlerSet)
    {
      WriteCommand(Join([MOVE, IntToString(startRow), IntToString(startCol)]));
    }
  }
}
