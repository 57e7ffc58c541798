/** The two tasks of an ingest connection as an interleaving step system, and the
    sequential loop they are meant to behave like. */
module Session {
  import opened Wrappers
  import opened Text
  import opened FtlCodec
  import opened Connection

  /** The command task's state: the negotiated fields, how many payloads it has drawn and
      how many commands it has handled. */
  datatype Server = Server(fields: Fields, drawn: nat, handled: nat)

  const START: Server := Server(FRESH, 0, 0)

  function Answer(env: Env, srv: Server, c: FtlCommand): Outcome {
    Handle(env, srv.handled, srv.fields, env.nonces(srv.drawn), c).outcome
  }

  function Advance(env: Env, srv: Server, c: FtlCommand): Server {
    Server(Handle(env, srv.handled, srv.fields, env.nonces(srv.drawn), c).fields,
           if c.HMAC? then srv.drawn + 1 else srv.drawn, srv.handled + 1)
  }

  datatype Handled = Handled(command: FtlCommand, outcome: Outcome)

  // ---------- the sequential loop ----------

  datatype Ending = AwaitsInput | BadFrame | FramePanic | Stalled | CommandPanic

  datatype Transcript = Transcript(out: string, trace: seq<Handled>, ending: Ending)

  /** Decode, handle, write; stop at the first command without an answer, refused frame or panic. */
  function Sequential(env: Env, srv: Server, input: string): Transcript
    decreases |input|, 0
  {
    var cut := Next(input);
    match cut.outcome
    case Incomplete => Transcript("", [], AwaitsInput)
    case Unsupported(_) => Transcript("", [], BadFrame)
    case Crash => Transcript("", [], FramePanic)
    case Item(c) => SequentialCommand(env, srv, c, cut.rest)
  }

  function SequentialCommand(env: Env, srv: Server, c: FtlCommand, rest: string): Transcript
    decreases |rest|, 1
  {
    var h := Handled(c, Answer(env, srv, c));
    match h.outcome
    case Silent => Transcript("", [h], Stalled)
    case Panic => Transcript("", [h], CommandPanic)
    case Reply(pieces) => After(Flat(pieces), [h], Sequential(env, Advance(env, srv, c), rest))
  }

  function After(out: string, trace: seq<Handled>, t: Transcript): Transcript {
    Transcript(out + t.out, trace + t.trace, t.ending)
  }

  // ---------- the two tasks ----------

  datatype FrameEnd = SocketClosed | RefusedFrame | DecoderPanicked | WriteFailed | PeerGone
  datatype CommandEnd = HandlerPanicked | ChannelClosed | AnswerRefused

  /** Where the frame task is: waiting for a frame, handing a command over, waiting for
      the answer, writing what is left of it, or gone. */
  datatype FramePc =
    | Reading
    | Forwarding(command: FtlCommand)
    | Awaiting
    | Writing(left: seq<string>, whole: seq<string>)
    | FrameDone(why: FrameEnd)

  datatype CommandPc =
    | Receiving
    | Working(command: FtlCommand)
    | Answering(command: FtlCommand, pieces: seq<string>)
    | CommandDone(end: CommandEnd)

  /** `unread` is what the client has still to deliver; `wire`, `trace` and `answered`
      record the bytes written, the commands handled and the answers written in full. */
  datatype State = State(
    frame: FramePc,
    command: CommandPc,
    toCommand: seq<FtlCommand>,
    toFrame: seq<seq<string>>,
    buffer: string,
    unread: string,
    server: Server,
    wire: string,
    trace: seq<Handled>,
    answered: seq<seq<string>>
  )

  const CAPACITY := 2

  function Initial(input: string): State {
    State(Reading, Receiving, [], [], "", input, START, "", [], [])
  }

  /** The atomic steps; each belongs to one task. */
  datatype Action =
    | ReadBytes(n: nat)
    | SocketEnds
    | DecodeFrame
    | Forward
    | ForwardFails
    | Collect
    | CollectFails
    | WriteBytes(n: nat)
    | WriteBreaks
    | FinishAnswer
    | Receive
    | ReceiveFails
    | HandleCommand
    | SendAnswer
    | SendAnswerFails

  /** `ends`: whether the client's stream ever ends (or fails) after its last byte. */
  predicate Enabled(ends: bool, s: State, a: Action) {
    match a
    case ReadBytes(n) => s.frame.Reading? && Find(s.buffer, DELIMITER).None? && 0 < n <= |s.unread|
    case SocketEnds => s.frame.Reading? && Find(s.buffer, DELIMITER).None? && s.unread == "" && ends
    case DecodeFrame => s.frame.Reading? && Find(s.buffer, DELIMITER).Some?
    case Forward => s.frame.Forwarding? && !s.command.CommandDone? && |s.toCommand| < CAPACITY
    case ForwardFails => s.frame.Forwarding? && s.command.CommandDone?
    case Collect => s.frame.Awaiting? && s.toFrame != []
    case CollectFails => s.frame.Awaiting? && s.toFrame == [] && s.command.CommandDone?
    case WriteBytes(n) =>
      s.frame.Writing? && s.frame.left != [] && n <= |s.frame.left[0]| && (n > 0 || s.frame.left[0] == "")
    case WriteBreaks => s.frame.Writing? && s.frame.left != []
    case FinishAnswer => s.frame.Writing? && s.frame.left == []
    case Receive => s.command.Receiving? && s.toCommand != []
    case ReceiveFails => s.command.Receiving? && s.toCommand == [] && s.frame.FrameDone?
    case HandleCommand => s.command.Working?
    case SendAnswer => s.command.Answering? && !s.frame.FrameDone? && |s.toFrame| < CAPACITY
    case SendAnswerFails => s.command.Answering? && s.frame.FrameDone?
  }

  function Apply(env: Env, ends: bool, s: State, a: Action): State
    requires Enabled(ends, s, a)
  {
    match a
    case ReadBytes(n) => s.(buffer := s.buffer + s.unread[..n], unread := s.unread[n..])
    case SocketEnds => s.(frame := FrameDone(SocketClosed))
    case DecodeFrame =>
      var cut := Next(s.buffer);
      (match cut.outcome
       case Item(c) => s.(frame := Forwarding(c), buffer := cut.rest)
       case Unsupported(_) => s.(frame := FrameDone(RefusedFrame), buffer := cut.rest)
       case Crash => s.(frame := FrameDone(DecoderPanicked), buffer := cut.rest))
    case Forward => s.(frame := Awaiting, toCommand := s.toCommand + [s.frame.command])
    case ForwardFails => s.(frame := FrameDone(PeerGone))
    case Collect => s.(frame := Writing(s.toFrame[0], s.toFrame[0]), toFrame := s.toFrame[1..])
    case CollectFails => s.(frame := FrameDone(PeerGone))
    case WriteBytes(n) =>
      var piece := s.frame.left[0];
      var left := if n == |piece| then s.frame.left[1..] else [piece[n..]] + s.frame.left[1..];
      s.(frame := Writing(left, s.frame.whole), wire := s.wire + piece[..n])
    case WriteBreaks => s.(frame := FrameDone(WriteFailed))
    case FinishAnswer => s.(frame := Reading, answered := s.answered + [s.frame.whole])
    case Receive => s.(command := Working(s.toCommand[0]), toCommand := s.toCommand[1..])
    case ReceiveFails => s.(command := CommandDone(ChannelClosed))
    case HandleCommand =>
      var c := s.command.command;
      var h := Handled(c, Answer(env, s.server, c));
      s.(command := AfterHandling(h), server := Advance(env, s.server, c), trace := s.trace + [h])
    case SendAnswer => s.(command := Receiving, toFrame := s.toFrame + [s.command.pieces])
    case SendAnswerFails =>
      s.(command := if s.command.command.Dot? then CommandDone(AnswerRefused) else Receiving)
  }

  function AfterHandling(h: Handled): CommandPc {
    match h.outcome
    case Reply(pieces) => Answering(h.command, pieces)
    case Silent => Receiving
    case Panic => CommandDone(HandlerPanicked)
  }

  /** The state after a schedule, if every step of it was possible. */
  function Run(env: Env, ends: bool, start: State, acts: seq<Action>): Option<State> {
    if acts == [] then Some(start)
    else
      match Run(env, ends, start, acts[..|acts| - 1])
      case None => None
      case Some(s) =>
        var a := acts[|acts| - 1];
        if Enabled(ends, s, a) then Some(Apply(env, ends, s, a)) else None
  }

  lemma RunSnoc(env: Env, ends: bool, start: State, acts: seq<Action>, a: Action)
    ensures var r := Run(env, ends, start, acts);
            Run(env, ends, start, acts + [a]) ==
            if r.Some? && Enabled(ends, r.value, a) then Some(Apply(env, ends, r.value, a)) else None
  {
    assert (acts + [a])[..|acts|] == acts;
  }

  /** Schedules compose. */
  lemma {:induction false} RunThenRun(env: Env, ends: bool, start: State, acts: seq<Action>, more: seq<Action>)
    requires Run(env, ends, start, acts).Some?
    ensures Run(env, ends, start, acts + more) == Run(env, ends, Run(env, ends, start, acts).value, more)
  {
    if more == [] {
      assert acts + [] == acts;
    } else {
      var init, a := more[..|more| - 1], more[|more| - 1];
      RunThenRun(env, ends, start, acts, init);
      RunSnoc(env, ends, start, acts + init, a);
      RunSnoc(env, ends, Run(env, ends, start, acts).value, init, a);
      assert more == init + [a] && acts + more == acts + init + [a];
    }
  }

  lemma RunCons(env: Env, ends: bool, start: State, a: Action, rest: seq<Action>)
    requires Enabled(ends, start, a)
    ensures Run(env, ends, start, [a] + rest) == Run(env, ends, Apply(env, ends, start, a), rest)
  {
    RunSnoc(env, ends, start, [], a);
    assert [] + [a] == [a];
    RunThenRun(env, ends, start, [a], rest);
  }

  ghost predicate Quiet(ends: bool, s: State) {
    forall a: Action :: !Enabled(ends, s, a)
  }
}
