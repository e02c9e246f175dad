/** What the protocol's encoders and decoders promise each other. */
module ProtocolLemmas {
  import opened Wrappers
  import opened Pieces
  import opened Text
  import opened TextLemmas
  import opened Protocol

  /** Every verb the server writes is one non-empty field of visible characters. */
  lemma VerbField(m: Message)
    ensures |Verb(m)| >= 1 && Visible(Verb(m)) && NoSpace(Verb(m))
  {
    VisibleField(Verb(m));
  }

  /** The client's MOVE verb is one visible field. */
  lemma MoveField()
    ensures Visible(MOVE) && NoSpace(MOVE) && '\n' !in MOVE
  {
    VisibleField(MOVE);
  }

  /** A colour's name is one visible field. */
  lemma ColorNameField(c: Color)
    ensures |ColorName(c)| >= 1 && Visible(ColorName(c))
  {
  }

  /** The CONNECT line is the verb, one space and the colour's name. */
  lemma ConnectLine(c: Color)
    ensures Format(Connect(c)) == CONNECT + " " + ColorName(c)
  {
    assert Format(Connect(c)) == Join([CONNECT, ColorName(c)]);
    assert [CONNECT, ColorName(c)][1..] == [ColorName(c)];
    assert Join([ColorName(c)]) == ColorName(c);
  }

  /** The MOVE_MADE line is the verb, one space and the four coordinates joined by spaces. */
  lemma MoveMadeLine(a: int, b: int, c: int, d: int)
    ensures Format(MoveMade(a, b, c, d)) == MOVE_MADE + " " + Join([IntToString(a), IntToString(b), IntToString(c), IntToString(d)])
  {
    var fs := [MOVE_MADE, IntToString(a), IntToString(b), IntToString(c), IntToString(d)];
    assert Format(MoveMade(a, b, c, d)) == Join(fs);
    assert fs[1..] == [IntToString(a), IntToString(b), IntToString(c), IntToString(d)];
  }

  /** A verb, one space and the rest: `next()` yields the verb and `nextLine()` the space and the rest. */
  lemma VerbOfLine(verb: string, rest: string)
    requires NoSpace(verb)
    ensures VerbOf(verb + " " + rest) == verb && ArgumentsOf(verb + " " + rest) == " " + rest
  {
    SpaceIndexJoin(verb, rest);
  }

  /** Every line the server writes is one visible field or several joined by single spaces, and carries no newline. */
  lemma FormatFields(m: Message)
    ensures |Format(m)| >= 1 && '\n' !in Format(m)
    ensures Format(m)[0] > ' ' && Format(m)[|Format(m)| - 1] > ' '
  {
    match m
    case Connect(c) =>
      VerbField(m);
      ColorNameField(c);
      JoinedLine([CONNECT, ColorName(c)]);
    case MoveMade(a, b, c, d) =>
      VerbField(m);
      IntToStringField(a); IntToStringField(b); IntToStringField(c); IntToStringField(d);
      JoinedLine([MOVE_MADE, IntToString(a), IntToString(b), IntToString(c), IntToString(d)]);
    case _ =>
      VerbField(m);
      VisibleField(Verb(m));
  }

  /** The client's `next()` on any line the server writes yields that message's verb. */
  lemma FormatVerb(m: Message)
    ensures VerbOf(Format(m)) == Verb(m)
  {
    match m
    case Connect(c) =>
      VerbField(m);
      ConnectLine(c);
      VerbOfLine(CONNECT, ColorName(c));
    case MoveMade(a, b, c, d) =>
      VerbField(m);
      MoveMadeLine(a, b, c, d);
      VerbOfLine(MOVE_MADE, Join([IntToString(a), IntToString(b), IntToString(c), IntToString(d)]));
    case _ =>
      PlainVerb(m);
  }

  /** A message without arguments is written as its bare verb. */
  lemma PlainVerb(m: Message)
    requires !m.Connect? && !m.MoveMade?
    ensures VerbOf(Format(m)) == Verb(m)
  {
    var v := Verb(m);
    assert Format(m) == v;
    VerbField(m);
    WordPrefix(v);
  }

  /** Messages of different kinds have different verbs: the verb tells the client which message arrived. */
  lemma VerbDistinguishes(m1: Message, m2: Message)
    requires Verb(m1) == Verb(m2)
    ensures m1.Connect? <==> m2.Connect?
    ensures m1.MoveMade? <==> m2.MoveMade?
    ensures m1 == m2 || (m1.Connect? && m2.Connect?) || (m1.MoveMade? && m2.MoveMade?)
  {
  }

  /** CONNECT round trip: the client decodes the colour the server assigned (WHITE or BLACK). */
  lemma ConnectRoundTrip(c: Color)
    requires c != NoColor
    ensures VerbOf(Format(Connect(c))) == CONNECT
    ensures DecodeColor(ArgumentsOf(Format(Connect(c)))) == c
  {
    VerbField(Connect(c));
    ConnectLine(c);
    VerbOfLine(CONNECT, ColorName(c));
    TrimLeadingSpace(ColorName(c));
  }

  /** The server announces a player's colour as NONE only if asked to; the client then reads BLACK. */
  lemma ConnectNoColor()
    ensures DecodeColor(ArgumentsOf(Format(Connect(NoColor)))) == Black
  {
    VerbField(Connect(NoColor));
    ConnectLine(NoColor);
    VerbOfLine(CONNECT, ColorName(NoColor));
    TrimLeadingSpace(ColorName(NoColor));
  }

  /** Four visible fields joined by spaces split and parse back. */
  lemma FourFields(a: int, b: int, c: int, d: int)
    requires IsInt32(a) && IsInt32(b) && IsInt32(c) && IsInt32(d)
    ensures var fs := [IntToString(a), IntToString(b), IntToString(c), IntToString(d)];
            Split(Join(fs)) == fs && ParseInt(fs[0]) == Some(a) && ParseInt(fs[1]) == Some(b)
            && ParseInt(fs[2]) == Some(c) && ParseInt(fs[3]) == Some(d)
  {
    var fs := [IntToString(a), IntToString(b), IntToString(c), IntToString(d)];
    IntToStringField(a); IntToStringField(b); IntToStringField(c); IntToStringField(d);
    SplitJoin(fs);
    ParseIntRoundTrip(a); ParseIntRoundTrip(b); ParseIntRoundTrip(c); ParseIntRoundTrip(d);
  }

  /** MOVE_MADE round trip: for 32-bit coordinates the client decodes exactly the move the server reported. */
  lemma MoveMadeRoundTrip(a: int, b: int, c: int, d: int)
    requires IsInt32(a) && IsInt32(b) && IsInt32(c) && IsInt32(d)
    ensures VerbOf(Format(MoveMade(a, b, c, d))) == MOVE_MADE
    ensures DecodeMoveMade(ArgumentsOf(Format(MoveMade(a, b, c, d)))) == Some((a, b, c, d))
  {
    var fs := [IntToString(a), IntToString(b), IntToString(c), IntToString(d)];
    var rest := Join(fs);
    MoveMadeLine(a, b, c, d);
    VerbField(MoveMade(a, b, c, d));
    VerbOfLine(MOVE_MADE, rest);
    DecodeFour(a, b, c, d);
  }

  /** The client's decoding of the space and the four joined coordinates. */
  lemma DecodeFour(a: int, b: int, c: int, d: int)
    requires IsInt32(a) && IsInt32(b) && IsInt32(c) && IsInt32(d)
    ensures DecodeMoveMade(" " + Join([IntToString(a), IntToString(b), IntToString(c), IntToString(d)])) == Some((a, b, c, d))
  {
    var fs := [IntToString(a), IntToString(b), IntToString(c), IntToString(d)];
    IntToStringField(a); IntToStringField(b); IntToStringField(c); IntToStringField(d);
    JoinedLine(fs);
    TrimLeadingSpace(Join(fs));
    FourFields(a, b, c, d);
  }

  /** The client's MOVE reply is read by the server's turn loop as the same move. */
  lemma ClientMoveRoundTrip(a: int, b: int, c: int, d: int)
    requires IsInt32(a) && IsInt32(b) && IsInt32(c) && IsInt32(d)
    ensures ReadMove(ParseCommand(ClientMove(a, b, c, d))) == MoveTo(a, b, c, d)
  {
    var fs := [MOVE, IntToString(a), IntToString(b), IntToString(c), IntToString(d)];
    MoveField();
    IntToStringField(a); IntToStringField(b); IntToStringField(c); IntToStringField(d);
    JoinAvoids(fs, '\n');
    RemoveNoNewlines(Join(fs));
    SplitJoin(fs);
    ParseIntRoundTrip(a); ParseIntRoundTrip(b); ParseIntRoundTrip(c); ParseIntRoundTrip(d);
  }

  /** `ChessConnection.move` as written sends three tokens, which the turn loop cannot read: it crashes. */
  lemma ConnectionMoveCrashes(a: int, b: int, c: int, d: int)
    ensures |ParseCommand(ConnectionMove(a, b, c, d))| == 3
    ensures ReadMove(ParseCommand(ConnectionMove(a, b, c, d))) == Crash
  {
    var fs := [MOVE, IntToString(a), IntToString(b)];
    MoveField();
    IntToStringField(a); IntToStringField(b);
    JoinAvoids(fs, '\n');
    RemoveNoNewlines(Join(fs));
    SplitJoin(fs);
  }

  /** A reply whose first token is not MOVE always takes the error path. */
  lemma OtherVerbIsNotMove(tokens: seq<string>)
    requires |tokens| >= 1 && tokens[0] != MOVE
    ensures ReadMove(tokens) == NotMove
  {
  }
}
