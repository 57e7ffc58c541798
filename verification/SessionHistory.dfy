/** What the history of a connection says: who was authenticated and how, what the
    server remembers, and which of the received commands were handled. */
module SessionHistory {
  import opened Wrappers
  import opened Hex
  import opened FtlCodec
  import opened Framing
  import opened Connection
  import opened Session
  import opened SessionProofs
  import StreamKey

  // ---------- authentication ----------

  /** The CONNECT, the k-th command, carries the MAC of `payload` (in hex) under the
      stream key the file then holds. */
  predicate Proves(env: Env, k: nat, data: map<string, string>, payload: string) {
    && "stream_key" in data && "channel_id" in data
    && ServerKey(env, k).Some? && Decode(payload).Some?
    && Decode(data["stream_key"]) == Some(env.mac(ServerKey(env, k).value, Decode(payload).value))
  }

  lemma AnsweredConnectProves(env: Env, srv: Server, c: FtlCommand)
    ensures c.Connect? && Answer(env, srv, c).Reply? <==>
            c.Connect? && Proves(env, srv.handled, c.data, GetPayload(srv.fields))
    ensures Answer(env, srv, c) == Reply(["200\n"]) ==> c.Connect?
  {
  }

  /** `200 <payload>\n`, in its three pieces. */
  predicate IsPayloadAnswer(pieces: seq<string>) {
    |pieces| == 3 && pieces[0] == "200 " && pieces[2] == "\n"
  }

  /** The payload of the most recent `200 <payload>\n` among the answers, or the empty text. */
  function LastPayload(answered: seq<seq<string>>): string {
    if answered == [] then ""
    else
      var last := answered[|answered| - 1];
      if IsPayloadAnswer(last) then last[1] else LastPayload(answered[..|answered| - 1])
  }

  lemma StoreKeepsPayload(f: Fields, key: AttributeKey, value: string)
    ensures Store(f, key, value).Some? ==> Store(f, key, value).value.hmacPayload == f.hmacPayload
  {
  }

  /** Only an HMAC command changes the payload. */
  lemma PayloadChangesOnHmac(env: Env, srv: Server, c: FtlCommand)
    ensures Advance(env, srv, c).fields.hmacPayload ==
            if c.HMAC? then Some(Encode(env.nonces(srv.drawn))) else srv.fields.hmacPayload
  {
    if c.Attribute? && "key" in c.data && "value" in c.data {
      StoreKeepsPayload(srv.fields, KeyNamed(c.data["key"]), c.data["value"]);
    }
  }

  lemma PayloadAfter(env: Env, srv: Server, c: FtlCommand)
    ensures Answer(env, srv, c).Reply? ==>
              var pieces := Answer(env, srv, c).pieces;
              GetPayload(Advance(env, srv, c).fields) ==
              if IsPayloadAnswer(pieces) then pieces[1] else GetPayload(srv.fields)
  {
    PayloadChangesOnHmac(env, srv, c);
  }

  /** The server's payload is always the one it last wrote. */
  lemma {:induction false} RemembersLastPayload(env: Env, trace: seq<Handled>, answered: seq<seq<string>>)
    requires Genuine(env, trace) && Answers(trace, answered) && |answered| == |trace|
    ensures GetPayload(ServerAfter(env, trace).fields) == LastPayload(answered)
  {
    if trace != [] {
      var n := |trace| - 1;
      GenuinePrefix(env, trace, n);
      RemembersLastPayload(env, trace[..n], answered[..n]);
      PayloadAfter(env, ServerAfter(env, trace[..n]), trace[n].command);
    }
  }

  /** Authentication history: every `200\n` answers a CONNECT whose hash is the MAC of the
      payload most recently written on this connection (the empty payload if none was). */
  lemma Authenticated(env: Env, ends: bool, input: string, acts: seq<Action>, s: State, k: nat)
    requires Run(env, ends, Initial(input), acts) == Some(s)
    requires k < |s.answered| && s.answered[k] == ["200\n"]
    ensures && k < |s.trace|
            && s.trace[k].command.Connect?
            && Proves(env, k, s.trace[k].command.data, LastPayload(s.answered[..k]))
  {
    ReachableIsSound(env, ends, input, acts);
    var before := s.trace[..k];
    GenuinePrefix(env, s.trace, k);
    CountsHandled(env, before);
    RemembersLastPayload(env, before, s.answered[..k]);
    AnsweredConnectProves(env, ServerAfter(env, before), s.trace[k].command);
  }

  /** Any byte written after a CONNECT was handled implies that the CONNECT was right. */
  lemma WrittenAfterConnectMeansVerified(env: Env, ends: bool, input: string, acts: seq<Action>, s: State, k: nat)
    requires Run(env, ends, Initial(input), acts) == Some(s)
    requires k < |s.trace| && s.trace[k].command.Connect?
             && |s.wire| > |FlatAll(if k < |s.answered| then s.answered[..k] else s.answered)|
    ensures Proves(env, k, s.trace[k].command.data, GetPayload(ServerAfter(env, s.trace[..k]).fields))
  {
    ReachableIsSound(env, ends, input, acts);
    WrittenMeansAnswered(s, k);
    CountsHandled(env, s.trace[..k]);
    AnsweredConnectProves(env, ServerAfter(env, s.trace[..k]), s.trace[k].command);
  }

  lemma WrittenMeansAnswered(s: State, k: nat)
    requires Books(s) && WireBooks(s) && k < |s.trace|
    requires |s.wire| > |FlatAll(if k < |s.answered| then s.answered[..k] else s.answered)|
    ensures s.trace[k].outcome.Reply?
  {
  }

  /** The payload drawn last, if any was. */
  function LastDrawn(env: Env, srv: Server): Bytes {
    if srv.drawn == 0 then [] else env.nonces(srv.drawn - 1)
  }

  predicate HoldsLastDrawn(env: Env, srv: Server) {
    srv.fields.hmacPayload == if srv.drawn == 0 then None else Some(Encode(LastDrawn(env, srv)))
  }

  lemma AdvanceHoldsLastDrawn(env: Env, srv: Server, c: FtlCommand)
    requires HoldsLastDrawn(env, srv)
    ensures HoldsLastDrawn(env, Advance(env, srv, c))
  {
    PayloadChangesOnHmac(env, srv, c);
    assert Advance(env, srv, c).drawn == if c.HMAC? then srv.drawn + 1 else srv.drawn;
  }

  lemma {:induction false} AlwaysHoldsLastDrawn(env: Env, trace: seq<Handled>)
    ensures HoldsLastDrawn(env, ServerAfter(env, trace))
  {
    if trace != [] {
      var n := |trace| - 1;
      AlwaysHoldsLastDrawn(env, trace[..n]);
      AdvanceHoldsLastDrawn(env, ServerAfter(env, trace[..n]), trace[n].command);
    }
  }

  /** The stored payload is absent or the hex form of the last payload drawn, so decoding
      it, which would otherwise panic, always succeeds. */
  lemma PayloadDecodes(env: Env, trace: seq<Handled>)
    ensures var srv := ServerAfter(env, trace); Decode(GetPayload(srv.fields)) == Some(LastDrawn(env, srv))
  {
    AlwaysHoldsLastDrawn(env, trace);
    RoundTrip(LastDrawn(env, ServerAfter(env, trace)));
  }

  /** So the command task panics on exactly the CONNECTs whose hash is not hex, or when the
      key file cannot be read. */
  lemma PanicsExactly(env: Env, trace: seq<Handled>, c: FtlCommand)
    ensures Answer(env, ServerAfter(env, trace), c) == Panic <==>
            && c.Connect? && "stream_key" in c.data && "channel_id" in c.data
            && (Decode(c.data["stream_key"]).None? || ServerKey(env, |trace|).None?)
  {
    PayloadDecodes(env, trace);
    CountsHandled(env, trace);
  }

  // ---------- authentication from the file ----------

  /** The key a CONNECT is checked against is StreamKey's look-up of the file as it then is. */
  lemma ServerKeyIsLookup(env: Env, utf8: Bytes -> bool, k: nat)
    ensures ServerKey(env, k) == StreamKey.Perform(utf8, env.hashFile(k), StreamKey.Lookup).key
  {
  }

  /** A CONNECT after any commands, said of the bytes of the file alone: where the file holds
      the key K, it is answered if and only if its hash is hex for the MAC, under K, of the
      payload drawn last (the empty one if none was). */
  lemma AnsweredFromFile(env: Env, trace: seq<Handled>, data: map<string, string>, K: Bytes)
    requires StreamKey.Holds(env.hashFile(|trace|), K)
    ensures Answer(env, ServerAfter(env, trace), Connect(data)) == Reply(["200\n"]) <==>
            && "stream_key" in data && "channel_id" in data
            && Lower(data["stream_key"]) == Encode(env.mac(K, LastDrawn(env, ServerAfter(env, trace))))
  {
    var srv := ServerAfter(env, trace);
    CountsHandled(env, trace);
    StreamKey.LoadsWhatItHolds(env.hashFile(|trace|));
    assert ServerKey(env, srv.handled) == Some(K);
    PayloadDecodes(env, trace);
    if "stream_key" in data {
      DecodeIsInverseOfEncode(data["stream_key"], env.mac(K, LastDrawn(env, srv)));
    }
    AnsweredConnectProves(env, srv, Connect(data));
  }

  /** The command task panics on exactly the CONNECTs with both fields whose hash is hex for
      nothing, or for which the file is missing or hex for nothing. */
  lemma PanicsFromFile(env: Env, trace: seq<Handled>, data: map<string, string>)
    ensures Answer(env, ServerAfter(env, trace), Connect(data)) == Panic <==>
            && "stream_key" in data && "channel_id" in data
            && (!StreamKey.HoldsSome(Some(data["stream_key"])) || !StreamKey.HoldsSome(env.hashFile(|trace|)))
  {
    PanicsExactly(env, trace, Connect(data));
    StreamKey.LoadsWhatItHolds(env.hashFile(|trace|));
    if "stream_key" in data {
      StreamKey.LoadsWhatItHolds(Some(data["stream_key"]));
    }
  }

  /** So a `200\n` proves knowledge of the key that start-up chose: as long as the file is
      what that start-up left, the k-th command, which it answers, is a CONNECT with the MAC
      under that key of the payload written last. */
  lemma ProvesTheStartupKey(env: Env, ends: bool, input: string, acts: seq<Action>, s: State, k: nat,
                            utf8: Bytes -> bool, file: Option<string>, call: StreamKey.Call)
    requires Run(env, ends, Initial(input), acts) == Some(s) && k < |s.answered| && s.answered[k] == ["200\n"]
    requires call.Startup? && StreamKey.Perform(utf8, file, call).key.Some?
    requires env.hashFile(k) == StreamKey.Perform(utf8, file, call).file
    ensures k < |s.trace| && s.trace[k].command.Connect?
    ensures var key, c := StreamKey.Perform(utf8, file, call).key.value, s.trace[k].command;
            && "stream_key" in c.data && Decode(LastPayload(s.answered[..k])).Some?
            && Lower(c.data["stream_key"]) == Encode(env.mac(key, Decode(LastPayload(s.answered[..k])).value))
  {
    Authenticated(env, ends, input, acts, s, k);
    StartupStores(utf8, file, call);
    var data := s.trace[k].command.data;
    DecodeIsInverseOfEncode(data["stream_key"], Decode(data["stream_key"]).value);
  }

  lemma StartupStores(utf8: Bytes -> bool, file: Option<string>, call: StreamKey.Call)
    requires call.Startup? && StreamKey.Perform(utf8, file, call).key.Some?
    ensures StreamKey.Load(StreamKey.Perform(utf8, file, call).file) == StreamKey.Perform(utf8, file, call).key
  {
    RoundTrip(call.random);
    if call.env.Some? {
      RoundTrip(call.env.value);
    }
  }

  // ---------- the loop handles what the decoder delivers ----------

  function Commands(trace: seq<Handled>): (cs: seq<FtlCommand>)
    ensures |cs| == |trace|
  {
    if trace == [] then [] else [trace[0].command] + Commands(trace[1..])
  }

  /** The answers of a trace, concatenated. */
  function Said(trace: seq<Handled>): string {
    if trace == [] then ""
    else (if trace[0].outcome.Reply? then Flat(trace[0].outcome.pieces) else "") + Said(trace[1..])
  }

  predicate AllReplied(trace: seq<Handled>) {
    forall k | 0 <= k < |trace| :: trace[k].outcome.Reply?
  }

  predicate StopsLike(ending: Ending, stop: Decoded) {
    match ending
    case AwaitsInput => stop.Incomplete?
    case BadFrame => stop.Unsupported?
    case FramePanic => stop.Crash?
    case Stalled => false
    case CommandPanic => false
  }

  /** A transcript against what draining the whole input delivers: the commands are handled
      in order from the first, the output is the concatenation of their answers, and either
      all were handled and answered, or it ended at the first that was not answered. */
  predicate Follows(t: Transcript, d: Drained) {
    && Commands(t.trace) <= d.items
    && t.out == Said(t.trace)
    && if AllReplied(t.trace) then Commands(t.trace) == d.items && StopsLike(t.ending, d.stop)
       else
         var n := |t.trace| - 1;
         && AllReplied(t.trace[..n])
         && t.ending == if t.trace[n].outcome.Silent? then Stalled else CommandPanic
  }

  lemma FollowsCons(h: Handled, t: Transcript, d: Drained, f: string)
    requires Follows(t, d) && h.outcome.Reply?
    ensures Follows(After(Flat(h.outcome.pieces), [h], t),
                    Drained([f] + d.frames, [h.command] + d.items, d.stop, d.rest))
  {
    var trace := [h] + t.trace;
    assert trace[1..] == t.trace;
    assert AllReplied(trace) <==> AllReplied(t.trace) by {
      assert forall k | 0 <= k < |t.trace| :: trace[k + 1] == t.trace[k];
    }
    if !AllReplied(t.trace) {
      var n := |t.trace|;
      assert trace[..n] == [h] + t.trace[..n - 1];
      assert trace[n] == t.trace[n - 1];
    }
  }

  lemma FollowsOne(h: Handled, rest: Drained, f: string)
    requires !h.outcome.Reply?
    ensures Follows(Transcript("", [h], if h.outcome.Silent? then Stalled else CommandPanic),
                    Drained([f] + rest.frames, [h.command] + rest.items, rest.stop, rest.rest))
  {
    assert Commands([h]) == [h.command] by {
      assert [h][1..] == [];
    }
    assert Said([h]) == "";
    assert [h][..0] == [];
  }

  lemma {:induction false} LoopFollowsDecoder(env: Env, srv: Server, input: string)
    ensures Follows(Sequential(env, srv, input), Drain(input))
    decreases |input|
  {
    var cut := Next(input);
    if cut.outcome.Item? {
      var c := cut.outcome.command;
      var h := Handled(c, Answer(env, srv, c));
      var f := DrainOne(input);
      if h.outcome.Reply? {
        var next := Advance(env, srv, c);
        LoopFollowsDecoder(env, next, cut.rest);
        FollowsCons(h, Sequential(env, next, cut.rest), Drain(cut.rest), f);
      } else {
        FollowsOne(h, Drain(cut.rest), f);
      }
    }
  }

  lemma DrainOne(input: string) returns (f: string)
    requires Next(input).outcome.Item?
    ensures var c, d := Next(input).outcome.command, Drain(Next(input).rest);
            Drain(input) == Drained([f] + d.frames, [c] + d.items, d.stop, d.rest)
  {
    f := Drain(input).frames[0];
  }

  /** The frame task panics, exactly: every command before was answered and the next frame
      is a short CONNECT. */
  lemma FramePanicsExactly(env: Env, srv: Server, input: string)
    ensures var t, d := Sequential(env, srv, input), Drain(input);
            t.ending == FramePanic <==>
              AllReplied(t.trace) && |d.frames| > |d.items| && ShortConnect(d.frames[|d.items|])
  {
    var d := Drain(input);
    LoopFollowsDecoder(env, srv, input);
    DrainIsFraming(input);
    if |d.frames| > |d.items| {
      CrashesExactlyOnShortConnect(d.frames[|d.items|]);
    }
  }
}
