/**
 * What a game session (src/server/ChessGame.java) promises its two clients,
 * proved about `Referee.Game` started on two fresh connections: STARTGAME
 * opens both transcripts, MAKE_MOVE alternates from `clients[0]`, both
 * clients receive the same MOVE_MADE echoes, the error path sends one ERROR
 * and no verdict, a finished game names a winner, and how often each socket
 * is closed on each way out of `run`.
 */
module RefereeLemmas {
  import opened Wrappers
  import opened Pieces
  import opened BoardState
  import opened Rules
  import opened Text
  import opened Protocol
  import opened ProtocolLemmas
  import opened Connections
  import opened Referee
  import BoardMoveLemmas
  import BoardInitLemmas
  import RulesLemmas

  /* ---------- what a client has received ---------- */

  /** A transcript summarised: MAKE_MOVE prompts, ERRORs, GAME_* verdicts, and the MOVE_MADE lines in order. */
  datatype Tally = Tally(prompts: nat, errors: nat, verdicts: nat, echoes: seq<string>)

  /** A line the client's `next()` reads as MOVE_MADE. */
  predicate IsEcho(line: string)
  {
    VerbOf(line) == MOVE_MADE
  }

  predicate IsVerdict(line: string)
  {
    line == GAME_WON || line == GAME_LOST || line == GAME_TIED
  }

  /** The tally after one more line. */
  function Bump(a: Tally, line: string): Tally
  {
    Tally(a.prompts + (if line == MAKE_MOVE then 1 else 0),
          a.errors + (if line == ERROR then 1 else 0),
          a.verdicts + (if IsVerdict(line) then 1 else 0),
          a.echoes + (if IsEcho(line) then [line] else []))
  }

  function TallyOf(lines: seq<string>): Tally
  {
    if lines == [] then Tally(0, 0, 0, [])
    else Bump(TallyOf(lines[..|lines| - 1]), lines[|lines| - 1])
  }

  /** The tally after one more message, by the message's kind. */
  function Record(a: Tally, m: Message): Tally
  {
    Tally(a.prompts + (if m == MakeMove then 1 else 0),
          a.errors + (if m == Error then 1 else 0),
          a.verdicts + (if m == GameWon || m == GameLost || m == GameTied then 1 else 0),
          a.echoes + (if m.MoveMade? then [Format(m)] else []))
  }

  /** The transcript opens with STARTGAME. */
  predicate Opened(lines: seq<string>)
  {
    |lines| >= 1 && lines[0] == STARTGAME
  }

  /** The last line a client received is `line`. */
  predicate EndsWith(lines: seq<string>, line: string)
  {
    |lines| >= 1 && lines[|lines| - 1] == line
  }

  /** What `clients[i]` has received so far. */
  function Heard(t: Table, i: nat): Tally
    requires i < 2
  {
    TallyOf(Seat(t, i).sent)
  }

  lemma TallyAppend(lines: seq<string>, line: string)
    ensures TallyOf(lines + [line]) == Bump(TallyOf(lines), line)
  {
    assert (lines + [line])[..|lines|] == lines;
  }

  /**
   * A written line counts as exactly the message it encodes: MAKE_MOVE,
   * ERROR and the verdicts are lines no other message produces, and the
   * client reads a line as MOVE_MADE exactly when it is one.
   */
  lemma FormatTally(a: Tally, m: Message)
    ensures Bump(a, Format(m)) == Record(a, m)
  {
    FormatVerb(m);
    FormatVerb(MakeMove);
    FormatVerb(Error);
    FormatVerb(GameWon);
    FormatVerb(GameLost);
    FormatVerb(GameTied);
  }

  /** A write reaches an open connection and is recorded; a closed one drops it. Nothing else changes. */
  lemma WriteTally(p: Peer, m: Message)
    ensures var q := Write(p, Format(m));
      && q.closes == p.closes && q.inbox == p.inbox
      && TallyOf(q.sent) == (if Closed(p) then TallyOf(p.sent) else Record(TallyOf(p.sent), m))
      && (Opened(p.sent) ==> Opened(q.sent))
      && (!Closed(p) ==> q.sent == p.sent + [Format(m)])
  {
    if !Closed(p) {
      TallyAppend(p.sent, Format(m));
      FormatTally(TallyOf(p.sent), m);
    }
  }

  /** `m` to `clients[0]`, then `clients[1]`, as each connection takes it. */
  lemma TellBothTally(t: Table, m: Message)
    ensures var u := TellBoth(t, m);
      && u.first.closes == t.first.closes && u.second.closes == t.second.closes
      && Heard(u, 0) == (if Closed(t.first) then Heard(t, 0) else Record(Heard(t, 0), m))
      && Heard(u, 1) == (if Closed(t.second) then Heard(t, 1) else Record(Heard(t, 1), m))
      && (Opened(t.first.sent) ==> Opened(u.first.sent))
      && (Opened(t.second.sent) ==> Opened(u.second.sent))
      && (!Closed(t.first) ==> u.first.sent == t.first.sent + [Format(m)])
      && (!Closed(t.second) ==> u.second.sent == t.second.sent + [Format(m)])
  {
    WriteTally(t.first, m);
    WriteTally(t.second, m);
  }

  /* ---------- the turn loop ---------- */

  /**
   * What holds of the two transcripts on every way out of the loop: both open
   * with STARTGAME, the same MOVE_MADE lines, no verdict yet, and
   * `clients[0]` prompted as often as `clients[1]` or once more.
   */
  predicate Shared(t: Table)
  {
    && Opened(t.first.sent) && Opened(t.second.sent)
    && Heard(t, 0).echoes == Heard(t, 1).echoes
    && Heard(t, 0).verdicts == 0 && Heard(t, 1).verdicts == 0
    && (Heard(t, 0).prompts == Heard(t, 1).prompts || Heard(t, 0).prompts == Heard(t, 1).prompts + 1)
  }

  /** The loop invariant when `clients[mover]` is next: both sockets open, no ERROR, and the prompts alternated from `clients[0]`. */
  predicate Running(t: Table, mover: nat)
    requires mover < 2
  {
    && Shared(t)
    && t.first.closes == 0 && t.second.closes == 0
    && Heard(t, 0).errors == 0 && Heard(t, 1).errors == 0
    && Heard(t, 0).prompts == Heard(t, 1).prompts + mover
  }

  /**
   * After the error path: each client received exactly one ERROR unless its
   * own read failed, which closed its socket before the callback's ERROR
   * could reach it; at most one read failed.
   */
  predicate ErrorEnd(t: Table)
  {
    && Shared(t)
    && t.first.closes + t.second.closes <= 1
    && Heard(t, 0).errors + t.first.closes == 1
    && Heard(t, 1).errors + t.second.closes == 1
  }

  /** After a finished loop or an exception that killed the thread: both sockets open, no ERROR. */
  predicate Quiet(t: Table)
  {
    && Shared(t)
    && t.first.closes == 0 && t.second.closes == 0
    && Heard(t, 0).errors == 0 && Heard(t, 1).errors == 0
  }

  /** How the loop may leave the two connections, by ending. */
  predicate Ends(o: Outcome)
  {
    && (o.ending == Errored ==> ErrorEnd(o.table))
    && (o.ending != Errored ==> Quiet(o.table))
  }

  /** A read that failed hands `parseCommand` the empty line, whose single empty token is not MOVE. */
  lemma EmptyLineIsNotMove()
    ensures ReadMove(ParseCommand("")) == NotMove
  {
    assert RemoveNewlines("") == "";
    assert Split("") == [""];
  }

  /** Before the reply is handled: the mover's prompt is out and at most the mover's own socket has been closed. */
  predicate Prompted(t: Table, next: nat)
    requires next < 2
  {
    && Shared(t) && Heard(t, 0).errors == 0 && Heard(t, 1).errors == 0
    && Heard(t, 0).prompts == Heard(t, 1).prompts + next
    && t.first.closes + t.second.closes <= 1
  }

  /** `error()`: ERROR to both reaches every client whose socket is still open. */
  lemma ErrorStep(t: Table, next: nat)
    requires next < 2 && Prompted(t, next)
    ensures ErrorEnd(TellBoth(t, Error))
  {
    TellBothTally(t, Error);
  }

  /** MOVE_MADE to both open clients: the same echo for each, so the invariant holds for the next player. */
  lemma EchoStep(t: Table, next: nat, m: Message)
    requires next < 2 && Prompted(t, next) && m.MoveMade?
    requires t.first.closes == 0 && t.second.closes == 0
    ensures Running(TellBoth(t, m), next)
  {
    TellBothTally(t, m);
  }

  /**
   * The reply handled: the error path sends ERROR to both, an exception
   * leaves the connections as they are, and an applied move echoes
   * MOVE_MADE to both, so the loop invariant holds for the next player.
   */
  lemma RespondStep(s: BoardState, t: Table, tokens: Option<seq<string>>, next: nat)
    requires WellFormed(s) && HasRosters(s) && next < 2 && Prompted(t, next)
    requires t.first.closes + t.second.closes == 0 || tokens == Some(ParseCommand(""))
    ensures match Respond(s, t, tokens)
            case Next(_, t') => Running(t', next)
            case Stop(o) => Ends(o)
  {
    EmptyLineIsNotMove();
    match tokens
    case None =>
      ErrorStep(t, next);
    case Some(move) =>
      match ReadMove(move)
      case Crash =>
      case NotMove =>
        ErrorStep(t, next);
      case MoveTo(a, b, c, d) =>
        if MoveFrom(s, a, b, c, d).error.Some? {
          ErrorStep(t, next);
        } else {
          EchoStep(t, next, MoveMade(a, b, c, d));
        }
  }

  /** MAKE_MOVE to `clients[mover]`, then its reply consumed: only the mover's transcript grows, by the prompt. */
  lemma PromptStep(t: Table, mover: nat)
    requires mover < 2 && Running(t, mover)
    ensures var t1 := Tell(t, mover, MakeMove);
      var rc := ReadCommand(Seat(t1, mover));
      var t2 := WithSeat(t1, mover, rc.peer);
      && Prompted(t2, NextMover(mover))
      && t2.first.closes + t2.second.closes == (if rc.failed then 1 else 0)
      && Seat(t2, mover).sent == Seat(t, mover).sent + [MAKE_MOVE]
      && Seat(t2, 1 - mover) == Seat(t, 1 - mover)
      && (rc.failed ==> Tokens(rc.result) == Some(ParseCommand("")))
  {
    WriteTally(Seat(t, mover), MakeMove);
  }

  /** One pass of the loop body keeps the invariant for the other player, or leaves the loop as `Ends` says. */
  lemma TurnStep(s: BoardState, t: Table, mover: nat)
    requires WellFormed(s) && HasRosters(s) && mover < 2 && Running(t, mover)
    ensures match Turn(s, t, mover)
            case Next(_, t') => Running(t', NextMover(mover))
            case Stop(o) => Ends(o)
  {
    var t1 := Tell(t, mover, MakeMove);
    var rc := ReadCommand(Seat(t1, mover));
    var t2 := WithSeat(t1, mover, rc.peer);
    PromptStep(t, mover);
    RespondStep(s, t2, Tokens(rc.result), NextMover(mover));
  }

  /** The whole loop from `clients[mover]` on leaves the connections as `Ends` says. */
  lemma {:induction false} PlayEnds(s: BoardState, t: Table, mover: nat)
    requires WellFormed(s) && HasRosters(s) && mover < 2 && Running(t, mover)
    ensures Ends(Play(s, t, mover))
    decreases Pending(t)
  {
    if !GameOver(s) {
      TurnStep(s, t, mover);
      match Turn(s, t, mover)
      case Stop(o) =>
      case Next(s', t') =>
        PlayEnds(s', t', NextMover(mover));
    }
  }

  /* ---------- the whole of run ---------- */

  /** `run` after its loop: nothing more on a crash, both closed after an error, the verdict and both closed otherwise. */
  lemma GameShape(s: BoardState, t: Table)
    requires WellFormed(s) && HasRosters(s)
    ensures var o := Play(s, TellBoth(t, StartGame), 0);
      && Game(s, t).ending == o.ending && Game(s, t).state == o.state
      && (o.ending == Crashed ==> Game(s, t).table == o.table)
      && (o.ending == Errored ==> Game(s, t).table == CloseBoth(o.table))
      && (o.ending == Finished ==> Game(s, t).table == CloseBoth(Announce(o.table, Winner(o.state))))
  {
  }

  /** Two connections nothing has been written to or closed yet, as the server hands them to the game. */
  predicate Fresh(t: Table)
  {
    t.first.sent == [] && t.second.sent == [] && t.first.closes == 0 && t.second.closes == 0
  }

  /** STARTGAME to both fresh connections starts the loop invariant for `clients[0]`. */
  lemma StartRunning(t: Table)
    requires Fresh(t)
    ensures Running(TellBoth(t, StartGame), 0)
  {
    TellBothTally(t, StartGame);
    assert TallyOf([]) == Tally(0, 0, 0, []);
  }

  /** The loop of a game on fresh connections leaves them as `Ends` says. */
  lemma GameLoopEnds(s: BoardState, t: Table)
    requires WellFormed(s) && HasRosters(s) && Fresh(t)
    ensures Ends(Play(s, TellBoth(t, StartGame), 0))
  {
    StartRunning(t);
    PlayEnds(s, TellBoth(t, StartGame), 0);
  }

  /**
   * On every way out of `run`, each client's transcript opens with STARTGAME
   * (so it precedes every MAKE_MOVE), both clients received the same MOVE_MADE
   * lines in the same order, and `clients[0]` was prompted as often as
   * `clients[1]` or once more.
   */
  lemma GameTranscripts(s: BoardState, t: Table)
    requires WellFormed(s) && HasRosters(s) && Fresh(t)
    ensures var g := Game(s, t);
      && Opened(g.table.first.sent) && Opened(g.table.second.sent)
      && Heard(g.table, 0).echoes == Heard(g.table, 1).echoes
      && (Heard(g.table, 0).prompts == Heard(g.table, 1).prompts
          || Heard(g.table, 0).prompts == Heard(g.table, 1).prompts + 1)
  {
    var o := Play(s, TellBoth(t, StartGame), 0);
    GameShape(s, t);
    GameLoopEnds(s, t);
    if o.ending == Finished {
      VerdictTally(o.table, Winner(o.state));
    }
  }

  /** A GAME_* line to an open client: one more verdict, nothing else counted. */
  lemma VerdictLine(p: Peer, m: Message)
    requires !Closed(p) && (m == GameWon || m == GameLost || m == GameTied)
    ensures var q := Write(p, Format(m));
      && q.closes == p.closes && q.sent == p.sent + [Verb(m)]
      && TallyOf(q.sent) == TallyOf(p.sent).(verdicts := TallyOf(p.sent).verdicts + 1)
      && (Opened(p.sent) ==> Opened(q.sent))
  {
    WriteTally(p, m);
  }

  /** The verdict `clients[seat]` receives when `getWinner` says `w`. */
  function VerdictFor(w: Color, seat: nat): (m: Message)
    ensures m == GameWon || m == GameLost || m == GameTied
  {
    if w == Black then (if seat == 0 then GameWon else GameLost)
    else if w == White then (if seat == 0 then GameLost else GameWon)
    else GameTied
  }

  /** The verdict block of `run`: BLACK's win is `clients[0]`'s, WHITE's is `clients[1]`'s, anything else a tie for both. */
  lemma AnnounceSeats(t: Table, w: Color)
    ensures Announce(t, w) == Table(Write(t.first, Format(VerdictFor(w, 0))), Write(t.second, Format(VerdictFor(w, 1))))
  {
  }

  /** The verdict: one GAME_* line to each open client, the echoes and prompts unchanged. */
  lemma VerdictTally(t: Table, w: Color)
    requires t.first.closes == 0 && t.second.closes == 0
    ensures var u := Announce(t, w);
      && u.first.closes == 0 && u.second.closes == 0
      && u.first.sent == t.first.sent + [Verb(VerdictFor(w, 0))]
      && u.second.sent == t.second.sent + [Verb(VerdictFor(w, 1))]
      && Heard(u, 0) == Heard(t, 0).(verdicts := Heard(t, 0).verdicts + 1)
      && Heard(u, 1) == Heard(t, 1).(verdicts := Heard(t, 1).verdicts + 1)
      && (Opened(t.first.sent) ==> Opened(u.first.sent))
      && (Opened(t.second.sent) ==> Opened(u.second.sent))
  {
    AnnounceSeats(t, w);
    VerdictLine(t.first, VerdictFor(w, 0));
    VerdictLine(t.second, VerdictFor(w, 1));
  }

  /**
   * The error path: no verdict reaches either client; each received one ERROR
   * and had its socket closed once, except a client whose read failed, which
   * received no ERROR and was closed twice (by `handle_error` and at the end
   * of `run`). At most one client's read failed.
   */
  lemma GameErrored(s: BoardState, t: Table)
    requires WellFormed(s) && HasRosters(s) && Fresh(t) && Game(s, t).ending == Errored
    ensures var g := Game(s, t);
      && Heard(g.table, 0).verdicts == 0 && Heard(g.table, 1).verdicts == 0
      && 1 <= g.table.first.closes <= 2 && 1 <= g.table.second.closes <= 2
      && g.table.first.closes + g.table.second.closes <= 3
      && Heard(g.table, 0).errors == 2 - g.table.first.closes
      && Heard(g.table, 1).errors == 2 - g.table.second.closes
  {
    GameShape(s, t);
    GameLoopEnds(s, t);
  }

  /** An exception out of the loop ends `run` with no ERROR, no verdict and neither socket closed. */
  lemma GameCrashed(s: BoardState, t: Table)
    requires WellFormed(s) && HasRosters(s) && Fresh(t) && Game(s, t).ending == Crashed
    ensures var g := Game(s, t);
      && g.table.first.closes == 0 && g.table.second.closes == 0
      && Heard(g.table, 0).errors == 0 && Heard(g.table, 1).errors == 0
      && Heard(g.table, 0).verdicts == 0 && Heard(g.table, 1).verdicts == 0
  {
    GameShape(s, t);
    GameLoopEnds(s, t);
  }

  /**
   * A game that left the loop because a king died names a winner (the tie
   * branch is unreachable): the winner's client hears GAME_WON last, the
   * other GAME_LOST, neither received an ERROR, and each socket is closed once.
   * WHITE wins exactly when the black king is dead.
   */
  lemma GameFinished(s: BoardState, t: Table)
    requires WellFormed(s) && HasRosters(s) && Fresh(t) && Game(s, t).ending == Finished
    ensures var g := Game(s, t); var f, v := g.table.first.sent, g.table.second.sent;
      && Winner(g.state) != NoColor
      && (Winner(g.state) == White <==> g.state.pieces[GetPiece(g.state, Black, KingSlot)].dead)
      && g.table.first.closes == 1 && g.table.second.closes == 1
      && Heard(g.table, 0).errors == 0 && Heard(g.table, 1).errors == 0
      && Heard(g.table, 0).verdicts == 1 && Heard(g.table, 1).verdicts == 1
      && (Winner(g.state) == Black ==> EndsWith(f, GAME_WON) && EndsWith(v, GAME_LOST))
      && (Winner(g.state) == White ==> EndsWith(f, GAME_LOST) && EndsWith(v, GAME_WON))
  {
    var o := Play(s, TellBoth(t, StartGame), 0);
    FinishedLoop(s, t);
    BoardMoveLemmas.WinnerMatchesGameOver(o.state);
    FinishedTable(o.table, Winner(o.state));
  }

  /** A loop that finished left both sockets open with no ERROR and no verdict, over a board where a king is dead. */
  lemma FinishedLoop(s: BoardState, t: Table)
    requires WellFormed(s) && HasRosters(s) && Fresh(t) && Game(s, t).ending == Finished
    ensures var o := Play(s, TellBoth(t, StartGame), 0);
      && o.ending == Finished && GameOver(o.state)
      && o.table.first.closes == 0 && o.table.second.closes == 0
      && Heard(o.table, 0).errors == 0 && Heard(o.table, 1).errors == 0
      && Heard(o.table, 0).verdicts == 0 && Heard(o.table, 1).verdicts == 0
      && Game(s, t).table == CloseBoth(Announce(o.table, Winner(o.state))) && Game(s, t).state == o.state
  {
    GameShape(s, t);
    GameLoopEnds(s, t);
  }

  /** The end of `run` after a loop that finished: the verdict, then both sockets closed. */
  lemma FinishedTable(t: Table, w: Color)
    requires t.first.closes == 0 && t.second.closes == 0
    requires Heard(t, 0).errors == 0 && Heard(t, 1).errors == 0
    requires Heard(t, 0).verdicts == 0 && Heard(t, 1).verdicts == 0
    ensures var u := CloseBoth(Announce(t, w)); var f, v := u.first.sent, u.second.sent;
      && u.first.closes == 1 && u.second.closes == 1
      && Heard(u, 0).errors == 0 && Heard(u, 1).errors == 0
      && Heard(u, 0).verdicts == 1 && Heard(u, 1).verdicts == 1
      && EndsWith(f, Verb(VerdictFor(w, 0))) && EndsWith(v, Verb(VerdictFor(w, 1)))
  {
    VerdictTally(t, w);
  }

  /* ---------- one turn ---------- */

  /** A reply that lets the loop go on adds the same MOVE_MADE line to both open transcripts. */
  lemma RespondLines(s: BoardState, t: Table, tokens: Option<seq<string>>)
    requires WellFormed(s) && HasRosters(s) && t.first.closes == 0 && t.second.closes == 0
    requires Respond(s, t, tokens).Next?
    ensures var u := Respond(s, t, tokens).table; var f := u.first.sent;
      && |f| >= 1 && IsEcho(f[|f| - 1])
      && f == t.first.sent + [f[|f| - 1]] && u.second.sent == t.second.sent + [f[|f| - 1]]
  {
    var c := ReadMove(tokens.value);
    var m := MoveMade(c.startRow, c.startCol, c.row, c.col);
    assert Respond(s, t, tokens).table == TellBoth(t, m);
    TellBothTally(t, m);
    FormatVerb(m);
  }

  /**
   * A turn that lets the loop go on sends `clients[mover]` MAKE_MOVE and then
   * the echo, and the other client the same echo only: the prompts alternate
   * with the loop's `moveNum`, and every echo goes to both.
   */
  lemma TurnLines(s: BoardState, t: Table, mover: nat)
    requires WellFormed(s) && HasRosters(s) && mover < 2 && Running(t, mover) && Turn(s, t, mover).Next?
    ensures var u := Turn(s, t, mover).table; var other := Seat(u, 1 - mover).sent;
      && |other| >= 1 && IsEcho(other[|other| - 1])
      && other == Seat(t, 1 - mover).sent + [other[|other| - 1]]
      && Seat(u, mover).sent == Seat(t, mover).sent + [MAKE_MOVE, other[|other| - 1]]
  {
    var t1 := Tell(t, mover, MakeMove);
    var rc := ReadCommand(Seat(t1, mover));
    var t2 := WithSeat(t1, mover, rc.peer);
    PromptStep(t, mover);
    EmptyLineIsNotMove();
    assert !rc.failed;
    RespondLines(s, t2, Tokens(rc.result));
    PromptThenEcho(t, t2, Turn(s, t, mover).table, mover);
  }

  /** MAKE_MOVE to `clients[mover]` followed by one echo to both. */
  lemma PromptThenEcho(t: Table, t2: Table, u: Table, mover: nat)
    requires mover < 2
    requires Seat(t2, mover).sent == Seat(t, mover).sent + [MAKE_MOVE] && Seat(t2, 1 - mover) == Seat(t, 1 - mover)
    requires |u.first.sent| >= 1 && IsEcho(u.first.sent[|u.first.sent| - 1])
    requires u.first.sent == t2.first.sent + [u.first.sent[|u.first.sent| - 1]]
    requires u.second.sent == t2.second.sent + [u.first.sent[|u.first.sent| - 1]]
    ensures var other := Seat(u, 1 - mover).sent;
      && |other| >= 1 && IsEcho(other[|other| - 1])
      && other == Seat(t, 1 - mover).sent + [other[|other| - 1]]
      && Seat(u, mover).sent == Seat(t, mover).sent + [MAKE_MOVE, other[|other| - 1]]
  {
    var e := u.first.sent[|u.first.sent| - 1];
    assert Seat(u, mover).sent == Seat(t2, mover).sent + [e];
    assert Seat(t, mover).sent + [MAKE_MOVE] + [e] == Seat(t, mover).sent + [MAKE_MOVE, e];
  }

  /**
   * A well-formed MOVE on a consistent board: it is applied exactly when the
   * start square is on the board and occupied and the target is on the board,
   * and the echo then reports it to both; otherwise `error()` sends ERROR to
   * both (an empty source or a failed `movePiece` takes the error path).
   */
  lemma MoveReplyOutcome(s: BoardState, t: Table, tokens: seq<string>)
    requires WellFormed(s) && HasRosters(s) && Consistent(s) && ReadMove(tokens).MoveTo?
    ensures var c := ReadMove(tokens); var r := Respond(s, t, Some(tokens));
      && (r.Next? <==> InBoard(c.startRow, c.startCol) && PieceAt(s, c.startRow, c.startCol).Some? && InBoard(c.row, c.col))
      && (r.Stop? ==> r.outcome.ending == Errored && r.outcome.table == TellBoth(t, Error))
      && (r.Next? ==> r.table == TellBoth(t, MoveMade(c.startRow, c.startCol, c.row, c.col)))
  {
    var c := ReadMove(tokens);
    BoardMoveLemmas.MoveFromOutcome(s, c.startRow, c.startCol, c.row, c.col);
  }

  /** On the initial board (4,0) holds the black king, unmoved. */
  lemma InitialBlackKing()
    ensures var s := InitialState();
      && WellFormed(s) && HasRosters(s) && Consistent(s)
      && PieceAt(s, 4, 0) == Some(GetPiece(s, Black, KingSlot))
      && s.pieces[GetPiece(s, Black, KingSlot)].kind == King && s.pieces[GetPiece(s, Black, KingSlot)].color == Black
      && s.pieces[GetPiece(s, Black, KingSlot)].row == 4 && s.pieces[GetPiece(s, Black, KingSlot)].col == 0
  {
    var s := InitialState();
    BoardInitLemmas.InitialReady();
    BoardInitLemmas.InitialKingsAndPawns(Black, KingSlot);
    var k := GetPiece(s, Black, KingSlot);
    assert Home(s, k) == Idx(4, 0);
  }

  /** `King.checkMove` rejects a jump of four squares. */
  lemma KingJumpRejected(s: BoardState, id: PieceId)
    requires WellFormed(s) && id < |s.pieces| && s.pieces[id].kind == King
    requires s.pieces[id].row == 4 && s.pieces[id].col == 0
    ensures !CheckMove(s, id, 4, 4)
  {
    RulesLemmas.KingShape(s, id, 4, 4);
  }

  /**
   * The server never consults `checkMove`: on the initial board the client's
   * reply moving the black king from (4,0) to (4,4), which `King.checkMove`
   * rejects, is applied and the loop goes on.
   */
  lemma MovesNotChecked(t: Table)
    ensures var s := InitialState();
      && WellFormed(s) && HasRosters(s) && PieceAt(s, 4, 0).Some?
      && s.pieces[PieceAt(s, 4, 0).value].kind == King && s.pieces[PieceAt(s, 4, 0).value].color == Black
      && !CheckMove(s, PieceAt(s, 4, 0).value, 4, 4)
      && Respond(s, t, Some(ParseCommand(ClientMove(4, 0, 4, 4)))).Next?
  {
    var s := InitialState();
    InitialBlackKing();
    var k := GetPiece(s, Black, KingSlot);
    KingJumpRejected(s, k);
    ClientMoveRoundTrip(4, 0, 4, 4);
    MoveReplyOutcome(s, t, ParseCommand(ClientMove(4, 0, 4, 4)));
  }
}
