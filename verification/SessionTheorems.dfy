/** The properties of an ingest connection, for every schedule of its two tasks, every
    way the input arrives and every answer of the outside world. */
module SessionTheorems {
  import opened Wrappers
  import opened Text
  import opened Hex
  import opened FtlCodec
  import opened Connection
  import opened Session
  import opened SessionProofs

  /** Refinement, safety: whatever the schedule and whenever the socket breaks, the bytes
      written and the commands handled are a prefix of what the sequential loop writes
      and handles on the whole input. */
  lemma TwoTasksRefineTheLoop(env: Env, ends: bool, input: string, acts: seq<Action>, s: State)
    requires Run(env, ends, Initial(input), acts) == Some(s)
    ensures var loop := Sequential(env, START, input);
            s.wire <= loop.out && s.trace <= loop.trace
  {
    ReachableIsSound(env, ends, input, acts);
  }

  /** How a connection that cannot move shows the loop's ending. */
  predicate Shows(s: State, ending: Ending) {
    match ending
    case AwaitsInput => s.frame.Reading? || s.frame == FrameDone(SocketClosed)
    case BadFrame => s.frame == FrameDone(RefusedFrame)
    case FramePanic => s.frame == FrameDone(DecoderPanicked)
    case Stalled => MutuallyBlocked(s)
    case CommandPanic => s.frame == FrameDone(PeerGone) && s.command == CommandDone(HandlerPanicked)
  }

  predicate MutuallyBlocked(s: State) {
    s.frame.Awaiting? && s.command.Receiving? && s.toCommand == [] && s.toFrame == []
  }

  lemma {:induction false} UnbrokenWithoutWriteError(env: Env, ends: bool, input: string, acts: seq<Action>)
    requires Run(env, ends, Initial(input), acts).Some? && WriteBreaks !in acts
    ensures !Broken(Run(env, ends, Initial(input), acts).value)
  {
    if acts != [] {
      UnbrokenWithoutWriteError(env, ends, input, acts[..|acts| - 1]);
      assert acts[|acts| - 1] in acts;
    }
  }

  /** Which step a state that is not finished can take. */
  function NextStep(s: State): Action {
    match s.frame
    case Reading =>
      if Find(s.buffer, DELIMITER).Some? then DecodeFrame
      else if s.unread != "" then ReadBytes(|s.unread|) else SocketEnds
    case Forwarding(_) => Forward
    case Writing(left, _) => if left == [] then FinishAnswer else WriteBytes(|left[0]|)
    case FrameDone(_) => ReceiveFails
    case Awaiting =>
      match s.command
      case Receiving => if s.toCommand != [] then Receive else Collect
      case Working(_) => HandleCommand
      case Answering(_, _) => SendAnswer
      case CommandDone(_) => CollectFails
  }

  predicate Finished(ends: bool, s: State) {
    || MutuallyBlocked(s)
    || (s.frame.FrameDone? && s.command.CommandDone?)
    || (s.frame.Reading? && Find(s.buffer, DELIMITER).None? && s.unread == "" && !ends)
  }

  /** The connection can move exactly until it is finished. */
  lemma QuietIsFinished(ends: bool, s: State)
    requires Shape(s)
    ensures Quiet(ends, s) <==> Finished(ends, s)
    ensures !Finished(ends, s) ==> Enabled(ends, s, NextStep(s)) && NextStep(s) != WriteBreaks
  {
    if Finished(ends, s) {
      forall a: Action
        ensures !Enabled(ends, s, a)
      {
      }
    } else {
      assert Enabled(ends, s, NextStep(s));
    }
  }

  /** Refinement, completeness: without a write error, once neither task can move the
      connection has written and handled exactly what the loop does, and shows its ending. */
  lemma QuietMeansComplete(env: Env, ends: bool, input: string, acts: seq<Action>, s: State)
    requires Run(env, ends, Initial(input), acts) == Some(s) && WriteBreaks !in acts
    requires Quiet(ends, s)
    ensures var loop := Sequential(env, START, input);
            s.wire == loop.out && s.trace == loop.trace && Shows(s, loop.ending)
  {
    ReachableIsSound(env, ends, input, acts);
    UnbrokenWithoutWriteError(env, ends, input, acts);
    QuietIsFinished(ends, s);
    FinishedHasNoFuture(env, ends, s);
  }

  lemma FinishedHasNoFuture(env: Env, ends: bool, s: State)
    requires Shape(s) && Finished(ends, s) && !Broken(s)
    ensures var f := Future(env, s); f.out == "" && f.trace == [] && Shows(s, f.ending)
  {
    if s.frame.Reading? {
      assert s.buffer + s.unread == s.buffer;
    }
  }

  // ---------- termination ----------

  /** The writes an answer takes, at most. */
  function Weight(left: seq<string>): nat {
    if left == [] then 0 else |left[0]| + 1 + Weight(left[1..])
  }

  /** The weight of the longest answer: `200 `, 256 hex digits and a line feed. */
  const LONGEST := 264

  /** What the exchange in progress can still take. */
  function Pending(s: State): nat {
    match s.frame
    case Forwarding(_) => LONGEST + 8
    case Awaiting =>
      if s.toCommand != [] then LONGEST + 7
      else if s.command.Working? then LONGEST + 6
      else if s.command.Answering? then Weight(s.command.pieces) + 5
      else if s.toFrame != [] then Weight(s.toFrame[0]) + 4
      else 3
    case Writing(left, _) => Weight(left) + 3
    case Reading => 2
    case FrameDone(_) => if s.command.CommandDone? then 0 else 1
  }

  /** A byte pays one step for being read; the four of a delimiter pay for an exchange. */
  const PER_BYTE := 68

  function Potential(s: State): nat {
    PER_BYTE * (|s.buffer| + |s.unread|) + |s.unread| + Pending(s)
  }

  lemma WeightOne(a: string)
    ensures Weight([a]) == |a| + 1
  {
    assert [a][1..] == [];
  }

  lemma WeightThree(a: string, b: string, c: string)
    ensures Weight([a, b, c]) == |a| + |b| + |c| + 3
  {
    assert [a, b, c][1..] == [b, c] && [b, c][1..] == [c];
    WeightOne(c);
    assert Weight([b, c]) == |b| + 1 + Weight([c]);
  }

  lemma AnswerWeight(env: Env, srv: Server, c: FtlCommand)
    ensures Answer(env, srv, c).Reply? ==> Weight(Answer(env, srv, c).pieces) <= LONGEST
  {
    var o := Answer(env, srv, c);
    if c.HMAC? {
      EncodeLength(env.nonces(srv.drawn));
      WeightThree("200 ", Encode(env.nonces(srv.drawn)), "\n");
    } else if o.Reply? {
      assert |o.pieces| == 1 && |o.pieces[0]| <= 27;
      WeightOne(o.pieces[0]);
      assert o.pieces == [o.pieces[0]];
    }
  }

  /** Every step of either task lowers the potential. */
  lemma EveryStepIsProgress(env: Env, ends: bool, s: State, a: Action)
    requires Shape(s) && Enabled(ends, s, a)
    ensures Potential(Apply(env, ends, s, a)) < Potential(s)
  {
    if a.WriteBytes? {
      WriteIsProgress(env, ends, s, a.n);
    } else if a.HandleCommand? {
      AnswerWeight(env, s.server, s.command.command);
    } else if a.DecodeFrame? {
      assert |Next(s.buffer).rest| + 4 <= |s.buffer|;
    }
  }

  lemma WriteIsProgress(env: Env, ends: bool, s: State, n: nat)
    requires Enabled(ends, s, WriteBytes(n))
    ensures Potential(Apply(env, ends, s, WriteBytes(n))) < Potential(s)
  {
    var piece := s.frame.left[0];
    if n < |piece| {
      assert ([piece[n..]] + s.frame.left[1..])[1..] == s.frame.left[1..];
    }
  }

  /** No schedule is infinite: on an input of n bytes it has at most 69n + 2 steps. */
  lemma {:induction false} SchedulesAreBounded(env: Env, ends: bool, input: string, acts: seq<Action>, s: State)
    requires Run(env, ends, Initial(input), acts) == Some(s)
    ensures |acts| + Potential(s) <= (PER_BYTE + 1) * |input| + 2
  {
    if acts != [] {
      var init, a := acts[..|acts| - 1], acts[|acts| - 1];
      var u := Run(env, ends, Initial(input), init).value;
      SchedulesAreBounded(env, ends, input, init, u);
      ReachableIsSound(env, ends, input, init);
      EveryStepIsProgress(env, ends, u, a);
    }
  }

  lemma RunsOnToTheEnd(env: Env, ends: bool, s: State) returns (more: seq<Action>)
    requires Shape(s)
    ensures WriteBreaks !in more && Run(env, ends, s, more).Some?
    ensures var t := Run(env, ends, s, more).value; Shape(t) && Finished(ends, t)
    decreases Potential(s)
  {
    if Finished(ends, s) {
      more := [];
    } else {
      var a := NextStep(s);
      QuietIsFinished(ends, s);
      EveryStepIsProgress(env, ends, s, a);
      ShapeStep(env, ends, s, a);
      var rest := RunsOnToTheEnd(env, ends, Apply(env, ends, s, a));
      RunCons(env, ends, s, a, rest);
      more := [a] + rest;
    }
  }

  /** From every reachable state the connection can run on, without a write error, to a
      state where neither task can move. */
  lemma RunsToTheEnd(env: Env, ends: bool, input: string, acts: seq<Action>) returns (more: seq<Action>)
    requires Run(env, ends, Initial(input), acts).Some?
    ensures WriteBreaks !in more
    ensures var r := Run(env, ends, Initial(input), acts + more); r.Some? && Quiet(ends, r.value)
  {
    var s := Run(env, ends, Initial(input), acts).value;
    ReachableIsSound(env, ends, input, acts);
    more := RunsOnToTheEnd(env, ends, s);
    RunThenRun(env, ends, Initial(input), acts, more);
    QuietIsFinished(ends, Run(env, ends, s, more).value);
  }

  // ---------- lockstep and stalls ----------

  /** At most one command or answer is on its way; the channels of capacity two never hold
      more than one item, so no send blocks, and none is ever refused. */
  lemma Lockstep(env: Env, ends: bool, input: string, acts: seq<Action>, s: State)
    requires Run(env, ends, Initial(input), acts) == Some(s)
    ensures && InFlight(s) <= 1
            && (s.frame.Forwarding? ==> Enabled(ends, s, Forward))
            && (s.command.Answering? ==> Enabled(ends, s, SendAnswer))
            && !Enabled(ends, s, ForwardFails) && !Enabled(ends, s, SendAnswerFails)
  {
    ReachableIsSound(env, ends, input, acts);
    OneInFlight(s);
    NothingRefused(ends, s);
  }

  lemma NothingRefused(ends: bool, s: State)
    requires Shape(s)
    ensures s.frame.Forwarding? ==> Enabled(ends, s, Forward)
    ensures s.command.Answering? ==> Enabled(ends, s, SendAnswer)
    ensures !Enabled(ends, s, ForwardFails) && !Enabled(ends, s, SendAnswerFails)
  {
  }

  lemma OneInFlight(s: State)
    requires Shape(s)
    ensures InFlight(s) <= 1
  {
  }

  /** The k-th answer written is the answer to the k-th command handled, handled in the
      state its predecessors left; the wire holds those answers and the part already
      written of the next one, also when the socket broke during it. */
  lemma AnswersInOrder(env: Env, ends: bool, input: string, acts: seq<Action>, s: State)
    requires Run(env, ends, Initial(input), acts) == Some(s)
    ensures && |s.answered| <= |s.trace| <= |s.answered| + 1
            && (forall k | 0 <= k < |s.answered| ::
                  Reply(s.answered[k]) == Answer(env, ServerAfter(env, s.trace[..k]), s.trace[k].command))
            && (s.frame.Writing? ==> s.wire + Flat(s.frame.left) == FlatAll(s.answered) + Flat(s.frame.whole))
            && (Broken(s) ==> BrokeWhileAnswering(s))
            && (!s.frame.Writing? && !Broken(s) ==> s.wire == FlatAll(s.answered))
  {
    ReachableIsSound(env, ends, input, acts);
  }

  /** The commands the server never answers. */
  predicate Unanswered(env: Env, srv: Server, c: FtlCommand) {
    match c
    case Disconnect => true
    case Connect(data) =>
      if "stream_key" in data && "channel_id" in data then Refused(env, srv, data["stream_key"]) else true
    case Attribute(data) =>
      if "key" in data && "value" in data then
        data["key"] in {"Video", "Audio"} && data["value"] !in {"true", "false"}
      else true
    case _ => false
  }

  /** A client hash that decodes, against a readable key, and is not the right one. */
  predicate Refused(env: Env, srv: Server, hash: string) {
    && Decode(hash).Some? && ServerKey(env, srv.handled).Some? && Decode(GetPayload(srv.fields)).Some?
    && Decode(hash).value != env.mac(ServerKey(env, srv.handled).value, Decode(GetPayload(srv.fields)).value)
  }

  /** The command task answers nothing on exactly these commands. */
  lemma SilentIsUnanswered(env: Env, srv: Server, c: FtlCommand)
    ensures Answer(env, srv, c) == Silent <==> Unanswered(env, srv, c)
  {
  }

  /** Both tasks are alive and wait for each other exactly when the last command handled is
      one the server never answers; then nothing moves again. The only other way for two
      live tasks to stand still is to wait for the client. */
  lemma StallExactlyAfterSilence(env: Env, ends: bool, input: string, acts: seq<Action>, s: State)
    requires Run(env, ends, Initial(input), acts) == Some(s)
    ensures && (MutuallyBlocked(s) <==>
                s.trace != [] &&
                var k := |s.trace| - 1;
                Unanswered(env, ServerAfter(env, s.trace[..k]), s.trace[k].command))
            && (MutuallyBlocked(s) ==> Quiet(ends, s))
            && (Quiet(ends, s) && !s.frame.FrameDone? && !s.command.CommandDone? && !s.frame.Reading? ==>
                  MutuallyBlocked(s))
  {
    ReachableIsSound(env, ends, input, acts);
    QuietIsFinished(ends, s);
    BlockedIsLastSilent(s);
    if s.trace != [] {
      var k := |s.trace| - 1;
      SilentIsUnanswered(env, ServerAfter(env, s.trace[..k]), s.trace[k].command);
    }
  }

  lemma BlockedIsLastSilent(s: State)
    requires Shape(s) && Books(s)
    ensures MutuallyBlocked(s) <==> LastOutcomeIs(s, Silent)
  {
    if s.trace != [] && |s.trace| == |s.answered| {
      assert s.trace[|s.trace| - 1].outcome == Reply(s.answered[|s.trace| - 1]);
    }
  }

  // ---------- shutdown ----------

  /** Once one task is gone the other has exactly one step left, and it ends it; the
      command task is never gone while the frame task waits for the client. */
  lemma JointShutdown(env: Env, ends: bool, input: string, acts: seq<Action>, s: State)
    requires Run(env, ends, Initial(input), acts) == Some(s)
    ensures && (s.frame.FrameDone? && !s.command.CommandDone? ==>
                  && Enabled(ends, s, ReceiveFails)
                  && (forall a: Action :: Enabled(ends, s, a) ==> a == ReceiveFails)
                  && Apply(env, ends, s, ReceiveFails).command.CommandDone?)
            && (s.command.CommandDone? && !s.frame.FrameDone? ==>
                  && Enabled(ends, s, CollectFails)
                  && (forall a: Action :: Enabled(ends, s, a) ==> a == CollectFails)
                  && Apply(env, ends, s, CollectFails).frame.FrameDone?)
            && (s.command.CommandDone? ==> !s.frame.Reading?)
  {
    ReachableIsSound(env, ends, input, acts);
  }
}
