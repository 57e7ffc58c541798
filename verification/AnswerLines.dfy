/** The client's side of the wire: reading the bytes written, line by line, tells which
    commands were answered and how. */
module AnswerLines {
  import opened Wrappers
  import opened Text
  import opened Hex
  import opened FtlCodec
  import opened Connection
  import opened Session
  import opened SessionProofs
  import opened SessionTheorems

  /** What one line of the server tells its client. */
  datatype Notice =
    | Pong
    | Accepted
    | UsePort(port: string)
    | Challenge(payload: Bytes)
    | Garbled

  const PORT_PREFIX := "200 hi. Use UDP port "

  function ReadLine(line: string): Notice {
    if line == "201" then Pong
    else if line == "200" then Accepted
    else if PORT_PREFIX <= line then UsePort(line[|PORT_PREFIX|..])
    else if "200 " <= line then
      match Decode(line[4..])
      case Some(payload) => Challenge(payload)
      case None => Garbled
    else Garbled
  }

  /** The complete lines of what has arrived; a last one without its line feed is not read yet. */
  function ReadWire(wire: string): seq<Notice>
    decreases |wire|
  {
    var i := First(wire, '\n');
    if i == |wire| then [] else [ReadLine(wire[..i])] + ReadWire(wire[i + 1..])
  }

  /** Nothing, or complete lines only. */
  predicate WholeLines(wire: string) {
    wire == "" || wire[|wire| - 1] == '\n'
  }

  lemma FirstIs(s: string, c: char, i: nat)
    requires i < |s| && s[i] == c && c !in s[..i]
    ensures First(s, c) == i
  {
    var j := First(s, c);
    assert forall k | 0 <= k < i :: s[k] in s[..i];
    assert forall k | 0 <= k < j :: s[k] in s[..j];
  }

  /** The first line is the same whatever follows the text. */
  lemma FirstLine(wire: string, more: string) returns (x: Notice, rest: string)
    requires '\n' in wire
    ensures |rest| < |wire| && (WholeLines(wire) ==> WholeLines(rest))
    ensures ReadWire(wire) == [x] + ReadWire(rest)
    ensures ReadWire(wire + more) == [x] + ReadWire(rest + more)
  {
    var i := First(wire, '\n');
    assert i < |wire| by {
      assert wire[..|wire|] == wire;
    }
    var s := wire + more;
    assert s[..i] == wire[..i] && s[i + 1..] == wire[i + 1..] + more;
    FirstIs(s, '\n', i);
    x, rest := ReadLine(wire[..i]), wire[i + 1..];
  }

  /** Reading goes on where whole lines ended. */
  lemma {:induction false} ReadOn(wire: string, more: string)
    requires WholeLines(wire)
    ensures ReadWire(wire + more) == ReadWire(wire) + ReadWire(more)
    decreases |wire|
  {
    if wire == "" {
      assert wire + more == more;
    } else {
      assert wire[|wire| - 1] in wire;
      var x, rest := FirstLine(wire, more);
      ReadOn(rest, more);
      Assoc(x, ReadWire(rest), ReadWire(more));
    }
  }

  lemma Assoc(x: Notice, a: seq<Notice>, b: seq<Notice>)
    ensures [x] + (a + b) == ([x] + a) + b
  {
  }

  lemma NothingRead(wire: string)
    requires '\n' !in wire
    ensures ReadWire(wire) == []
  {
  }

  /** Bytes still to come never change what was read. */
  lemma {:induction false} ReadPrefix(wire: string, more: string)
    ensures ReadWire(wire) <= ReadWire(wire + more)
    decreases |wire|
  {
    if '\n' in wire {
      var x, rest := FirstLine(wire, more);
      ReadPrefix(rest, more);
    } else {
      NothingRead(wire);
    }
  }

  // ---------- what the commands owe ----------

  function HmacCount(trace: seq<Handled>): nat {
    if trace == [] then 0
    else HmacCount(trace[..|trace| - 1]) + if trace[|trace| - 1].command.HMAC? then 1 else 0
  }

  /** What the client must be told: one line for every command answered, none for an attribute. */
  function Owed(env: Env, trace: seq<Handled>): seq<Notice> {
    if trace == [] then []
    else
      var before, h := trace[..|trace| - 1], trace[|trace| - 1];
      Owed(env, before) + if h.outcome.Reply? then OwedFor(h.command, env.nonces(HmacCount(before))) else []
  }

  function OwedFor(c: FtlCommand, nonce: Nonce): seq<Notice> {
    match c
    case HMAC => [Challenge(nonce)]
    case Connect(_) => [Accepted]
    case Attribute(_) => []
    case Ping => [Pong]
    case Dot => [UsePort("65535")]
    case Disconnect => []
  }

  lemma {:induction false} DrawsPerHmac(env: Env, trace: seq<Handled>)
    ensures ServerAfter(env, trace).drawn == HmacCount(trace)
  {
    if trace != [] {
      DrawsPerHmac(env, trace[..|trace| - 1]);
    }
  }

  /** The text is whole lines and says just this. */
  predicate Tells(text: string, notices: seq<Notice>) {
    ReadWire(text) == notices && WholeLines(text)
  }

  lemma OneLine(line: string)
    requires '\n' !in line
    ensures Tells(line + "\n", [ReadLine(line)])
  {
    var s := line + "\n";
    var i := |line|;
    assert s[..i] == line && s[i + 1..] == "";
    FirstIs(s, '\n', i);
  }

  lemma ReadHex(line: string)
    requires |line| > 4 && line[..4] == "200 " && line[4] in DIGITS
    ensures ReadLine(line) == var p := Decode(line[4..]); if p.Some? then Challenge(p.value) else Garbled
  {
    assert PORT_PREFIX[4] == 'h' && 'h' !in DIGITS;
    assert line[..4] <= line;
  }

  lemma ReadChallenge(line: string, payload: Bytes)
    requires payload != [] && line == "200 " + Encode(payload)
    ensures ReadLine(line) == Challenge(payload)
  {
    RoundTrip(payload);
    EncodeIsDigits(payload);
    EncodeLength(payload);
    assert line[4] == Encode(payload)[0];
    assert line[4..] == Encode(payload) && line[..4] == "200 ";
    ReadHex(line);
  }

  lemma ChallengeIsLine(payload: Bytes, line: string)
    requires line == "200 " + Encode(payload)
    ensures '\n' !in line
  {
    var hex := Encode(payload);
    EncodeIsDigits(payload);
    assert '\n' !in DIGITS && '\n' !in "200 ";
    assert '\n' !in hex by {
      assert forall k | 0 <= k < |hex| :: hex[k] in DIGITS;
    }
  }

  lemma FlatOne(piece: string)
    ensures Flat([piece]) == piece
  {
    assert [piece][1..] == [];
  }

  lemma FlatThree(a: string, b: string, c: string)
    ensures Flat([a, b, c]) == a + b + c
  {
    FlatOne(c);
    assert [b, c][1..] == [c];
    assert Flat([b, c]) == b + c;
    assert [a, b, c][1..] == [b, c];
    assert a + (b + c) == a + b + c;
  }

  lemma ChallengeReads(nonce: Nonce)
    ensures Tells(Flat(["200 ", Encode(nonce), "\n"]), [Challenge(nonce)])
  {
    FlatThree("200 ", Encode(nonce), "\n");
    ReadChallenge("200 " + Encode(nonce), nonce);
    ChallengeIsLine(nonce, "200 " + Encode(nonce));
    OneLine("200 " + Encode(nonce));
  }

  lemma PortReads(port: string)
    requires '\n' !in port
    ensures Tells(PORT_PREFIX + port + "\n", [UsePort(port)])
  {
    var line := PORT_PREFIX + port;
    assert '\n' !in PORT_PREFIX;
    assert line[|PORT_PREFIX|..] == port;
    assert PORT_PREFIX <= line;
    OneLine(line);
  }

  lemma CodeReads()
    ensures Tells("200\n", [Accepted]) && Tells("201\n", [Pong])
  {
    OneLine("200");
    OneLine("201");
    assert "200" + "\n" == "200\n" && "201" + "\n" == "201\n";
  }

  lemma AnswerInWords(env: Env, srv: Server, c: FtlCommand)
    requires Answer(env, srv, c).Reply?
    ensures var pieces := Answer(env, srv, c).pieces;
            if c.HMAC? then pieces == ["200 ", Encode(env.nonces(srv.drawn)), "\n"]
            else pieces == [if c.Connect? then "200\n" else if c.Attribute? then ""
                            else if c.Ping? then "201\n" else PORT_PREFIX + "65535" + "\n"]
    ensures !c.Disconnect?
  {
    assert "200 hi. Use UDP port 65535\n" == PORT_PREFIX + "65535" + "\n";
  }

  /** One answer, read back. */
  lemma AnswerReads(env: Env, srv: Server, c: FtlCommand)
    requires Answer(env, srv, c).Reply?
    ensures Tells(Flat(Answer(env, srv, c).pieces), OwedFor(c, env.nonces(srv.drawn)))
  {
    AnswerInWords(env, srv, c);
    var pieces := Answer(env, srv, c).pieces;
    if c.HMAC? {
      ChallengeReads(env.nonces(srv.drawn));
    } else {
      FlatOne(pieces[0]);
      if c.Dot? {
        PortReads("65535");
      } else {
        CodeReads();
      }
    }
  }

  lemma TellsOn(a: string, b: string, x: seq<Notice>, y: seq<Notice>)
    requires Tells(a, x) && Tells(b, y)
    ensures Tells(a + b, x + y)
  {
    ReadOn(a, b);
    WholeOn(a, b);
  }

  lemma WholeOn(a: string, b: string)
    requires WholeLines(a) && WholeLines(b)
    ensures WholeLines(a + b)
  {
    if b == "" {
      assert a + b == a;
    } else {
      assert (a + b)[|a + b| - 1] == b[|b| - 1];
    }
  }

  /** The last command has the answer that is its due. */
  predicate LastGenuine(env: Env, trace: seq<Handled>)
    requires trace != []
  {
    var n := |trace| - 1;
    trace[n].outcome == Answer(env, ServerAfter(env, trace[..n]), trace[n].command)
  }

  /** The answers so far and the one to the last command. */
  lemma NextAnswerReads(env: Env, trace: seq<Handled>, written: string)
    requires trace != [] && LastGenuine(env, trace) && trace[|trace| - 1].outcome.Reply?
    requires Tells(written, Owed(env, trace[..|trace| - 1]))
    ensures Tells(written + Flat(trace[|trace| - 1].outcome.pieces), Owed(env, trace))
  {
    var before, h := trace[..|trace| - 1], trace[|trace| - 1];
    DrawsPerHmac(env, before);
    AnswerReads(env, ServerAfter(env, before), h.command);
    TellsOn(written, Flat(h.outcome.pieces), Owed(env, before), OwedFor(h.command, env.nonces(HmacCount(before))));
  }

  lemma OneMoreRead(env: Env, trace: seq<Handled>, answered: seq<seq<string>>)
    requires trace != [] && |answered| == |trace|
    requires LastGenuine(env, trace) && trace[|trace| - 1].outcome == Reply(answered[|trace| - 1])
    requires Tells(FlatAll(answered[..|trace| - 1]), Owed(env, trace[..|trace| - 1]))
    ensures Tells(FlatAll(answered), Owed(env, trace))
  {
    NextAnswerReads(env, trace, FlatAll(answered[..|trace| - 1]));
  }

  lemma {:induction false} AnswersRead(env: Env, trace: seq<Handled>, answered: seq<seq<string>>)
    requires Genuine(env, trace) && Answers(trace, answered) && |answered| == |trace|
    ensures Tells(FlatAll(answered), Owed(env, trace))
  {
    if trace == [] {
      NothingRead("");
    } else {
      var n := |trace| - 1;
      GenuinePrefix(env, trace, n);
      AnswersRead(env, trace[..n], answered[..n]);
      OneMoreRead(env, trace, answered);
    }
  }

  lemma ReadPart(wire: string, whole: string)
    requires wire <= whole
    ensures ReadWire(wire) <= ReadWire(whole)
  {
    ReadPrefix(wire, whole[|wire|..]);
    assert wire + whole[|wire|..] == whole;
  }

  lemma WrittenInPart(env: Env, trace: seq<Handled>, answered: seq<seq<string>>, wire: string)
    requires Genuine(env, trace) && Answers(trace, answered) && |trace| == |answered| + 1
    requires trace[|answered|].outcome.Reply?
    requires wire <= FlatAll(answered) + Flat(trace[|answered|].outcome.pieces)
    ensures ReadWire(wire) <= Owed(env, trace)
  {
    var n := |answered|;
    GenuinePrefix(env, trace, n);
    AnswersRead(env, trace[..n], answered);
    NextAnswerReads(env, trace, FlatAll(answered));
    ReadPart(wire, FlatAll(answered) + Flat(trace[n].outcome.pieces));
  }

  lemma WrittenBeforeSilence(env: Env, trace: seq<Handled>, answered: seq<seq<string>>)
    requires Genuine(env, trace) && Answers(trace, answered) && |trace| == |answered| + 1
    requires !trace[|answered|].outcome.Reply?
    ensures ReadWire(FlatAll(answered)) == Owed(env, trace)
  {
    GenuinePrefix(env, trace, |answered|);
    AnswersRead(env, trace[..|answered|], answered);
  }

  /** In every reachable state, also after a broken write, the lines the client can read
      are the first of those owed for the commands handled, each in its place; all of them
      once the server waits for the client or for nothing, or has ended the connection
      itself and no write broke. */
  lemma WireTellsTheAnswers(env: Env, ends: bool, input: string, acts: seq<Action>, s: State)
    requires Run(env, ends, Initial(input), acts) == Some(s)
    ensures ReadWire(s.wire) <= Owed(env, s.trace)
    ensures s.frame.Reading? || MutuallyBlocked(s) || (s.frame.FrameDone? && !Broken(s)) ==>
              ReadWire(s.wire) == Owed(env, s.trace)
  {
    ReachableIsSound(env, ends, input, acts);
    BlockedIsLastSilent(s);
    if |s.trace| == |s.answered| {
      AnswersRead(env, s.trace, s.answered);
    } else if s.trace[|s.answered|].outcome.Reply? {
      WireIsPartial(s);
      WrittenInPart(env, s.trace, s.answered, s.wire);
    } else {
      WrittenBeforeSilence(env, s.trace, s.answered);
    }
  }

  lemma WireIsPartial(s: State)
    requires Books(s) && WireBooks(s) && |s.trace| == |s.answered| + 1
    requires s.trace[|s.answered|].outcome.Reply?
    ensures s.wire <= FlatAll(s.answered) + Flat(s.trace[|s.answered|].outcome.pieces)
  {
  }
}
