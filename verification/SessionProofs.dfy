/** What every reachable state of a connection keeps, and how the two tasks together
    relate to the sequential loop. */
module SessionProofs {
  import opened Text
  import opened FtlCodec
  import opened Connection
  import opened Session

  // ---------- lockstep ----------

  predicate LastOutcomeIs(s: State, p: Outcome) {
    s.trace != [] && s.trace[|s.trace| - 1].outcome == p
  }

  /** The places a command or its answer can be while the frame task waits. */
  predicate WaitingShape(s: State) {
    match s.command
    case Receiving =>
      || (|s.toCommand| == 1 && s.toFrame == [])
      || (s.toCommand == [] && |s.toFrame| == 1)
      || (s.toCommand == [] && s.toFrame == [] && LastOutcomeIs(s, Silent))
    case Working(_) => s.toCommand == [] && s.toFrame == []
    case Answering(_, _) => s.toCommand == [] && s.toFrame == []
    case CommandDone(end) => end.HandlerPanicked? && s.toCommand == [] && s.toFrame == [] && LastOutcomeIs(s, Panic)
  }

  predicate DoneShape(s: State)
    requires s.frame.FrameDone?
  {
    && s.toCommand == [] && s.toFrame == []
    && (if s.frame.why.PeerGone? then s.command == CommandDone(HandlerPanicked) && LastOutcomeIs(s, Panic)
        else s.command == Receiving || s.command == CommandDone(ChannelClosed))
  }

  predicate Shape(s: State) {
    match s.frame
    case Awaiting => WaitingShape(s)
    case FrameDone(_) => DoneShape(s)
    case _ => s.command == Receiving && s.toCommand == [] && s.toFrame == []
  }

  lemma ShapeStep(env: Env, ends: bool, s: State, a: Action)
    requires Shape(s) && Enabled(ends, s, a)
    ensures Shape(Apply(env, ends, s, a))
  {
  }

  /** Commands and answers on their way: in a channel, held by the command task, or held
      by the frame task on its way out. */
  function InFlight(s: State): nat {
    |s.toCommand| + |s.toFrame|
    + (if s.command.Working? || s.command.Answering? then 1 else 0)
    + (if s.frame.Forwarding? || s.frame.Writing? then 1 else 0)
  }

  // ---------- refinement ----------

  /** What the connection will still write, handle and end with. */
  function Future(env: Env, s: State): Transcript {
    var stream := s.buffer + s.unread;
    match s.frame
    case Reading => Sequential(env, s.server, stream)
    case Forwarding(c) => SequentialCommand(env, s.server, c, stream)
    case Writing(left, _) => After(Flat(left), [], Sequential(env, s.server, stream))
    case FrameDone(why) => Transcript("", [], EndingOf(why))
    case Awaiting =>
      match s.command
      case Working(c) => SequentialCommand(env, s.server, c, stream)
      case Answering(_, pieces) => After(Flat(pieces), [], Sequential(env, s.server, stream))
      case CommandDone(_) => Transcript("", [], CommandPanic)
      case Receiving =>
        if s.toCommand != [] then SequentialCommand(env, s.server, s.toCommand[0], stream)
        else if s.toFrame != [] then After(Flat(s.toFrame[0]), [], Sequential(env, s.server, stream))
        else Transcript("", [], Stalled)
  }

  function EndingOf(why: FrameEnd): Ending {
    match why
    case SocketClosed => AwaitsInput
    case RefusedFrame => BadFrame
    case DecoderPanicked => FramePanic
    case PeerGone => CommandPanic
    case WriteFailed => AwaitsInput
  }

  /** Past and future together are the sequential transcript. */
  predicate OnTrack(env: Env, s: State, goal: Transcript) {
    After(s.wire, s.trace, Future(env, s)) == goal
  }

  predicate Broken(s: State) {
    s.frame == FrameDone(WriteFailed)
  }

  predicate Refines(env: Env, s: State, goal: Transcript) {
    if Broken(s) then s.wire <= goal.out && s.trace <= goal.trace else OnTrack(env, s, goal)
  }

  lemma NextExtends(a: string, b: string)
    requires Find(a, DELIMITER).Some?
    ensures Next(a + b) == Next(a).(rest := Next(a).rest + b)
  {
    FindInPrefix(a, b);
    var i := Find(a, DELIMITER).value;
    assert (a + b)[..i] == a[..i] && (a + b)[i + 4..] == a[i + 4..] + b;
  }

  lemma RefinesDecode(env: Env, ends: bool, s: State, goal: Transcript)
    requires Shape(s) && Enabled(ends, s, DecodeFrame) && OnTrack(env, s, goal)
    ensures OnTrack(env, Apply(env, ends, s, DecodeFrame), goal)
  {
    NextExtends(s.buffer, s.unread);
  }

  lemma RefinesReading(env: Env, ends: bool, s: State, a: Action, goal: Transcript)
    requires Shape(s) && Enabled(ends, s, a) && OnTrack(env, s, goal)
    requires a.ReadBytes? || a.SocketEnds?
    ensures OnTrack(env, Apply(env, ends, s, a), goal)
  {
    if a.ReadBytes? {
      assert s.buffer + s.unread[..a.n] + s.unread[a.n..] == s.buffer + s.unread;
    } else {
      assert s.buffer + s.unread == s.buffer;
    }
  }

  lemma RefinesHandover(env: Env, ends: bool, s: State, a: Action, goal: Transcript)
    requires Shape(s) && Enabled(ends, s, a) && Refines(env, s, goal)
    requires a.Forward? || a.ForwardFails? || a.Collect? || a.CollectFails? || a.Receive? || a.ReceiveFails?
             || a.SendAnswer? || a.SendAnswerFails?
    ensures Refines(env, Apply(env, ends, s, a), goal)
  {
  }

  lemma FlatSplit(left: seq<string>, n: nat)
    requires left != [] && n <= |left[0]|
    ensures var rest := if n == |left[0]| then left[1..] else [left[0][n..]] + left[1..];
            Flat(left) == left[0][..n] + Flat(rest)
  {
    assert left[0] == left[0][..n] + left[0][n..];
    if n < |left[0]| {
      assert ([left[0][n..]] + left[1..])[1..] == left[1..];
    }
  }

  predicate Leads(wire: string, trace: seq<Handled>, t: Transcript, goal: Transcript) {
    wire + t.out == goal.out && trace + t.trace == goal.trace && t.ending == goal.ending
  }

  lemma LeadsAfter(wire: string, trace: seq<Handled>, out: string, more: seq<Handled>, t: Transcript, goal: Transcript)
    ensures After(wire, trace, After(out, more, t)) == goal <==> Leads(wire + out, trace + more, t, goal)
  {
    assert wire + (out + t.out) == wire + out + t.out;
    assert trace + (more + t.trace) == trace + more + t.trace;
  }

  lemma OnTrackWhileWriting(env: Env, s: State, goal: Transcript)
    requires s.frame.Writing?
    ensures OnTrack(env, s, goal) <==>
            Leads(s.wire + Flat(s.frame.left), s.trace, Sequential(env, s.server, s.buffer + s.unread), goal)
  {
    LeadsAfter(s.wire, s.trace, Flat(s.frame.left), [], Sequential(env, s.server, s.buffer + s.unread), goal);
    assert s.trace + [] == s.trace;
  }

  lemma SamePosition(env: Env, s: State, s': State, goal: Transcript)
    requires s.frame.Writing? && s'.frame.Writing?
    requires s'.server == s.server && s'.buffer == s.buffer && s'.unread == s.unread && s'.trace == s.trace
    requires s'.wire + Flat(s'.frame.left) == s.wire + Flat(s.frame.left)
    ensures OnTrack(env, s, goal) <==> OnTrack(env, s', goal)
  {
    OnTrackWhileWriting(env, s, goal);
    OnTrackWhileWriting(env, s', goal);
  }

  lemma WriteMovesBytes(env: Env, ends: bool, s: State, n: nat)
    requires Enabled(ends, s, WriteBytes(n))
    ensures var s' := Apply(env, ends, s, WriteBytes(n));
            s'.frame.Writing? && s'.frame.whole == s.frame.whole
            && s'.wire + Flat(s'.frame.left) == s.wire + Flat(s.frame.left)
  {
    FlatSplit(s.frame.left, n);
  }

  lemma RefinesWriteBytes(env: Env, ends: bool, s: State, n: nat, goal: Transcript)
    requires Enabled(ends, s, WriteBytes(n)) && OnTrack(env, s, goal)
    ensures OnTrack(env, Apply(env, ends, s, WriteBytes(n)), goal)
  {
    WriteMovesBytes(env, ends, s, n);
    SamePosition(env, s, Apply(env, ends, s, WriteBytes(n)), goal);
  }

  lemma RefinesWriteEnd(env: Env, ends: bool, s: State, a: Action, goal: Transcript)
    requires Enabled(ends, s, a) && OnTrack(env, s, goal)
    requires a.WriteBreaks? || a.FinishAnswer?
    ensures Refines(env, Apply(env, ends, s, a), goal)
  {
    if a.FinishAnswer? {
      OnTrackWhileWriting(env, s, goal);
      assert s.wire + Flat(s.frame.left) == s.wire;
    }
  }

  lemma RefinesWorking(env: Env, ends: bool, s: State, goal: Transcript)
    requires Shape(s) && Enabled(ends, s, HandleCommand) && OnTrack(env, s, goal)
    ensures OnTrack(env, Apply(env, ends, s, HandleCommand), goal)
  {
    var c, stream := s.command.command, s.buffer + s.unread;
    var h := Handled(c, Answer(env, s.server, c));
    var s' := Apply(env, ends, s, HandleCommand);
    if h.outcome.Reply? {
      var t := Sequential(env, Advance(env, s.server, c), stream);
      LeadsAfter(s.wire, s.trace, Flat(h.outcome.pieces), [h], t, goal);
      LeadsAfter(s.wire, s.trace + [h], Flat(h.outcome.pieces), [], t, goal);
      assert s.trace + [h] + [] == s.trace + [h];
    } else {
      assert s.trace + [h] + [] == s.trace + [h];
    }
  }

  lemma RefinesStep(env: Env, ends: bool, s: State, a: Action, goal: Transcript)
    requires Shape(s) && Enabled(ends, s, a) && Refines(env, s, goal)
    ensures Refines(env, Apply(env, ends, s, a), goal)
  {
    if a.ReadBytes? || a.SocketEnds? {
      RefinesReading(env, ends, s, a, goal);
    } else if a.DecodeFrame? {
      RefinesDecode(env, ends, s, goal);
    } else if a.WriteBytes? {
      RefinesWriteBytes(env, ends, s, a.n, goal);
    } else if a.WriteBreaks? || a.FinishAnswer? {
      RefinesWriteEnd(env, ends, s, a, goal);
    } else if a.HandleCommand? {
      RefinesWorking(env, ends, s, goal);
    } else {
      RefinesHandover(env, ends, s, a, goal);
    }
  }

  // ---------- what was handled, answered and written ----------

  /** The server's state after handling the commands of a trace. */
  function ServerAfter(env: Env, trace: seq<Handled>): Server {
    if trace == [] then START
    else Advance(env, ServerAfter(env, trace[..|trace| - 1]), trace[|trace| - 1].command)
  }

  lemma {:induction false} CountsHandled(env: Env, trace: seq<Handled>)
    ensures ServerAfter(env, trace).handled == |trace|
  {
    if trace != [] {
      CountsHandled(env, trace[..|trace| - 1]);
    }
  }

  /** Every recorded outcome is the one its command has in its place. */
  predicate Genuine(env: Env, trace: seq<Handled>) {
    forall k | 0 <= k < |trace| ::
      trace[k].outcome == Answer(env, ServerAfter(env, trace[..k]), trace[k].command)
  }

  lemma GenuinePrefix(env: Env, trace: seq<Handled>, n: nat)
    requires Genuine(env, trace) && n <= |trace|
    ensures Genuine(env, trace[..n])
  {
    forall k | 0 <= k < n
      ensures trace[..n][..k] == trace[..k]
    {
    }
  }

  predicate Answers(trace: seq<Handled>, answered: seq<seq<string>>) {
    && |answered| <= |trace|
    && (forall k | 0 <= k < |answered| :: trace[k].outcome == Reply(answered[k]))
  }

  function FlatAll(answered: seq<seq<string>>): string {
    if answered == [] then ""
    else FlatAll(answered[..|answered| - 1]) + Flat(answered[|answered| - 1])
  }

  /** The answer that is on its way to the wire. */
  predicate Carries(s: State, pieces: seq<string>) {
    |s.trace| == |s.answered| + 1 && LastOutcomeIs(s, Reply(pieces))
  }

  predicate History(env: Env, s: State) {
    s.server == ServerAfter(env, s.trace) && Genuine(env, s.trace)
  }

  predicate LastReplied(s: State) {
    s.trace == [] || s.trace[|s.trace| - 1].outcome.Reply?
  }

  predicate Books(s: State) {
    && Answers(s.trace, s.answered)
    && |s.trace| <= |s.answered| + 1
    && (s.frame.FrameDone? && !s.frame.why.PeerGone? ==> LastReplied(s))
    && (s.frame.FrameDone? && !s.frame.why.PeerGone? && !s.frame.why.WriteFailed? ==> |s.trace| == |s.answered|)
    && (s.frame.Reading? || s.frame.Forwarding? || s.toCommand != [] || s.command.Working? ==>
          |s.trace| == |s.answered|)
    && (s.command.Answering? ==> Carries(s, s.command.pieces))
    && (s.toFrame != [] ==> Carries(s, s.toFrame[0]))
    && (s.frame.Writing? ==> Carries(s, s.frame.whole))
  }

  predicate BrokeWhileAnswering(s: State) {
    && |s.trace| == |s.answered| + 1
    && s.trace[|s.answered|].outcome.Reply?
    && s.wire <= FlatAll(s.answered) + Flat(s.trace[|s.answered|].outcome.pieces)
  }

  predicate WireBooks(s: State) {
    if s.frame.Writing? then s.wire + Flat(s.frame.left) == FlatAll(s.answered) + Flat(s.frame.whole)
    else if Broken(s) then BrokeWhileAnswering(s)
    else s.wire == FlatAll(s.answered)
  }

  lemma TraceGrows(env: Env, trace: seq<Handled>, h: Handled)
    requires Genuine(env, trace) && h.outcome == Answer(env, ServerAfter(env, trace), h.command)
    ensures Genuine(env, trace + [h])
    ensures ServerAfter(env, trace + [h]) == Advance(env, ServerAfter(env, trace), h.command)
  {
    var longer := trace + [h];
    assert longer[..|trace|] == trace;
    forall k | 0 <= k < |longer|
      ensures longer[k].outcome == Answer(env, ServerAfter(env, longer[..k]), longer[k].command)
    {
      if k < |trace| {
        assert longer[..k] == trace[..k];
      }
    }
  }

  lemma HistoryStep(env: Env, ends: bool, s: State, a: Action)
    requires History(env, s) && Enabled(ends, s, a)
    ensures History(env, Apply(env, ends, s, a))
  {
    if a.HandleCommand? {
      var c := s.command.command;
      TraceGrows(env, s.trace, Handled(c, Answer(env, s.server, c)));
    }
  }

  lemma AnswersSnoc(trace: seq<Handled>, answered: seq<seq<string>>, last: seq<string>)
    requires Answers(trace, answered) && |answered| < |trace| && trace[|answered|].outcome == Reply(last)
    ensures Answers(trace, answered + [last])
  {
  }

  lemma BooksStep(env: Env, ends: bool, s: State, a: Action)
    requires Shape(s) && Books(s) && Enabled(ends, s, a)
    ensures Books(Apply(env, ends, s, a))
  {
    var s' := Apply(env, ends, s, a);
    if a.HandleCommand? {
      assert s'.answered == s.answered && s'.trace[..|s.trace|] == s.trace;
      assert forall k | 0 <= k < |s.answered| :: s'.trace[k] == s.trace[k];
    } else if a.FinishAnswer? {
      AnswersSnoc(s.trace, s.answered, s.frame.whole);
    } else {
      assert s'.trace == s.trace && s'.answered == s.answered;
    }
  }

  lemma WireBooksStep(env: Env, ends: bool, s: State, a: Action)
    requires Shape(s) && Books(s) && WireBooks(s) && Enabled(ends, s, a)
    ensures WireBooks(Apply(env, ends, s, a))
  {
    if a.WriteBytes? {
      WireBooksWrite(env, ends, s, a.n);
    } else if a.WriteBreaks? {
      assert s.wire <= s.wire + Flat(s.frame.left);
    } else if a.FinishAnswer? {
      assert (s.answered + [s.frame.whole])[..|s.answered|] == s.answered;
      assert s.wire + Flat(s.frame.left) == s.wire;
    } else {
      WireBooksKeep(env, ends, s, a);
    }
  }

  lemma WireBooksKeep(env: Env, ends: bool, s: State, a: Action)
    requires Shape(s) && WireBooks(s) && Enabled(ends, s, a)
    requires !a.WriteBytes? && !a.WriteBreaks? && !a.FinishAnswer?
    ensures WireBooks(Apply(env, ends, s, a))
  {
    var s' := Apply(env, ends, s, a);
    assert s'.wire == s.wire && s'.answered == s.answered;
    if a.Collect? {
      assert s'.wire + Flat(s'.frame.left) == FlatAll(s'.answered) + Flat(s'.frame.whole);
    } else {
      assert s'.frame.Writing? == s.frame.Writing?;
      assert s.frame.Writing? ==> s'.frame == s.frame;
      assert Broken(s') == Broken(s);
      assert Broken(s) ==> s'.trace == s.trace;
    }
  }

  lemma WireBooksWrite(env: Env, ends: bool, s: State, n: nat)
    requires WireBooks(s) && Enabled(ends, s, WriteBytes(n))
    ensures WireBooks(Apply(env, ends, s, WriteBytes(n)))
  {
    WriteMovesBytes(env, ends, s, n);
  }

  // ---------- every reachable state ----------

  predicate Sound(env: Env, input: string, s: State) {
    && Shape(s)
    && Refines(env, s, Sequential(env, START, input))
    && History(env, s)
    && Books(s)
    && WireBooks(s)
  }

  lemma {:induction false} ReachableIsSound(env: Env, ends: bool, input: string, acts: seq<Action>)
    requires Run(env, ends, Initial(input), acts).Some?
    ensures Sound(env, input, Run(env, ends, Initial(input), acts).value)
  {
    if acts == [] {
      assert "" + input == input;
    } else {
      var init, a := acts[..|acts| - 1], acts[|acts| - 1];
      ReachableIsSound(env, ends, input, init);
      var s := Run(env, ends, Initial(input), init).value;
      SoundStep(env, ends, input, s, a);
    }
  }

  lemma SoundStep(env: Env, ends: bool, input: string, s: State, a: Action)
    requires Sound(env, input, s) && Enabled(ends, s, a)
    ensures Sound(env, input, Apply(env, ends, s, a))
  {
    ShapeStep(env, ends, s, a);
    RefinesStep(env, ends, s, a, Sequential(env, START, input));
    HistoryStep(env, ends, s, a);
    BooksStep(env, ends, s, a);
    WireBooksStep(env, ends, s, a);
  }
}
