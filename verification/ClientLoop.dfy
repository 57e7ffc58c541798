/** A client's write loop as code: what it takes from its select, in order, and what it
    puts on the connection; and every run of the step system as a run of that code. */
module ClientLoop {
  import opened Wrappers
  import opened HubModel
  import opened HubWriter
  import opened HubSafety

  /** What the select yields: a message, the closed channel, or the ping timer; `ok` tells
      whether the write that follows succeeds. */
  datatype Event = Received(m: Message, ok: bool) | ChannelClosed | Tick(ok: bool)

  predicate EndsLoop(e: Event) {
    e.ChannelClosed? || !e.ok
  }

  function Messages(events: seq<Event>): seq<Message> {
    if events == [] then []
    else
      var last := events[|events| - 1];
      Messages(events[..|events| - 1]) + if last.Received? then [last.m] else []
  }

  class Conn {
    var attempted: seq<Frame>
    var closed: bool

    constructor ()
      ensures attempted == [] && !closed
    {
      attempted, closed := [], false;
    }

    method Write(f: Frame, works: bool) returns (ok: bool)
      modifies this`attempted
      ensures ok == works && attempted == old(attempted) + [f]
    {
      attempted := attempted + [f];
      ok := works;
    }

    method Close()
      modifies this`closed
      ensures closed
    {
      closed := true;
    }
  }

  function FrameFor(e: Event): Frame {
    match e
    case Received(m, _) => Text(m)
    case ChannelClosed => CloseFrame
    case Tick(_) => Ping
  }

  function Frames(events: seq<Event>): seq<Frame> {
    if events == [] then []
    else Frames(events[..|events| - 1]) + [FrameFor(events[|events| - 1])]
  }

  lemma FramesSnoc(events: seq<Event>, e: Event)
    ensures Frames(events + [e]) == Frames(events) + [FrameFor(e)]
  {
    assert (events + [e])[..|events|] == events;
  }

  /** One frame per event; the texts are the messages received, the close frames stand for
      the closed channel. */
  lemma {:induction false} FramesMirrorEvents(events: seq<Event>)
    ensures |Frames(events)| == |events|
    ensures Texts(Frames(events)) == Messages(events)
    ensures forall k | 0 <= k < |events| :: Frames(events)[k] == CloseFrame <==> events[k].ChannelClosed?
  {
    if events != [] {
      var init, last := events[..|events| - 1], events[|events| - 1];
      FramesMirrorEvents(init);
      TextsSnoc(Frames(init), FrameFor(last));
    }
  }

  /** How many of the events the loop gets to: up to the first that ends it. */
  function UpToEnd(events: seq<Event>): (n: nat)
    ensures n <= |events|
  {
    if events == [] then 0
    else if EndsLoop(events[0]) then 1
    else 1 + UpToEnd(events[1..])
  }

  lemma {:induction false} UpToEndIs(events: seq<Event>, n: nat)
    requires n <= |events| && forall k | 0 <= k < n - 1 :: !EndsLoop(events[k])
    requires if n < |events| then n > 0 && EndsLoop(events[n - 1]) else true
    ensures UpToEnd(events) == n
  {
    if n > 1 || (n == 1 && !EndsLoop(events[0])) {
      assert forall k | 0 <= k < n - 2 :: events[1..][k] == events[k + 1];
      UpToEndIs(events[1..], n - 1);
    }
  }

  lemma OneMore(events: seq<Event>, k: nat)
    requires k < |events|
    ensures Frames(events[..k + 1]) == Frames(events[..k]) + [FrameFor(events[k])]
  {
    assert events[..k + 1] == events[..k] + [events[k]];
    FramesSnoc(events[..k], events[k]);
  }

  lemma Summary(events: seq<Event>, n: nat)
    requires n <= |events|
    ensures |Frames(events[..n])| == n
    ensures Texts(Frames(events[..n])) == Messages(events[..n])
    ensures forall k | 0 <= k < n :: Frames(events[..n])[k] == CloseFrame <==> events[k].ChannelClosed?
  {
    FramesMirrorEvents(events[..n]);
    assert forall k | 0 <= k < n :: events[..n][k] == events[k];
  }

  /** The loop handles its events in order up to the first that ends it, and then closes the
      connection. It attempts exactly the messages received so far, in their order, and a
      close frame only as the very last thing, after the channel was closed. */
  method WriteLoop(conn: Conn, events: seq<Event>) returns (handled: nat)
    requires conn.attempted == [] && !conn.closed
    modifies conn
    ensures handled == UpToEnd(events) && conn.attempted == Frames(events[..handled])
    ensures |conn.attempted| == handled
    ensures Texts(conn.attempted) == Messages(events[..handled])
    ensures forall k | 0 <= k < handled - 1 :: !EndsLoop(events[k])
    ensures conn.closed <==> handled > 0 && EndsLoop(events[handled - 1])
    ensures !conn.closed ==> handled == |events|
    ensures forall k | 0 <= k < handled :: conn.attempted[k] == CloseFrame <==> events[k].ChannelClosed?
  {
    handled := 0;
    var running := true;
    while running && handled < |events|
      invariant handled <= |events| && conn.attempted == Frames(events[..handled]) && !conn.closed
      invariant forall k | 0 <= k < handled - 1 :: !EndsLoop(events[k])
      invariant running <==> handled == 0 || !EndsLoop(events[handled - 1])
      decreases |events| - handled
    {
      var e := events[handled];
      OneMore(events, handled);
      if e.ChannelClosed? {
        var sent := conn.Write(CloseFrame, true);
        running := false;
      } else {
        running := conn.Write(if e.Received? then Text(e.m) else Ping, e.ok);
      }
      handled := handled + 1;
    }
    if !running {
      conn.Close();
    }
    Summary(events, handled);
    UpToEndIs(events, handled);
  }

  // ---------- the step system runs this code ----------

  /** What a step is to the write loop of `c`. */
  function EventOf(s: State, a: Action, c: Cid): Option<Event> {
    match a
    case PingTick(d, ok) => if d == c then Some(Tick(ok)) else None
    case WriterAttempt(d, ok) =>
      if d == c && c < |s.clients| && s.clients[c].writer.Holding? then Some(Received(s.clients[c].writer.m, ok))
      else None
    case WriterSeesClose(d) => if d == c then Some(ChannelClosed) else None
    case _ => None
  }

  /** The events of the write loop of `c` in a run. */
  function EventsOf(acts: seq<Action>, c: Cid): seq<Event> {
    if acts == [] then []
    else
      var init := acts[..|acts| - 1];
      var r := Run(INITIAL, init);
      var e := if r.Some? then EventOf(r.value, acts[|acts| - 1], c) else None;
      EventsOf(init, c) + if e.Some? then [e.value] else []
  }

  /** The client after its write loop has handled the events. */
  predicate Handles(cl: Client, events: seq<Event>) {
    && cl.attempted == Frames(events)
    && (forall k | 0 <= k < |events| - 1 :: !EndsLoop(events[k]))
    && (cl.writer.Returned? <==> events != [] && EndsLoop(events[|events| - 1]))
    && (cl.writer.Returned? ==> cl.connClosed)
  }

  /** A step across the loop: an event is handled as the code does, anything else leaves
      the loop where it is. */
  predicate LoopStep(cl: Client, cl': Client, e: Option<Event>) {
    if e.Some? then
      && !cl.writer.Returned?
      && cl'.attempted == cl.attempted + [FrameFor(e.value)]
      && (cl'.writer.Returned? <==> EndsLoop(e.value))
      && (EndsLoop(e.value) ==> cl'.connClosed)
    else
      && cl'.attempted == cl.attempted
      && (cl'.writer.Returned? <==> cl.writer.Returned?)
      && (cl.connClosed ==> cl'.connClosed)
  }

  lemma LoopStepTask(s: State, a: Action, c: Cid)
    requires Enabled(s, a) && TaskAction(a) && c < |s.clients|
    ensures c < |ApplyTask(s, a).clients| && LoopStep(s.clients[c], ApplyTask(s, a).clients[c], None)
  {
  }

  lemma LoopStepHub(s: State, c: Cid)
    requires HubStepEnabled(s) && c < |s.clients|
    ensures c < |ApplyHub(s).clients| && LoopStep(s.clients[c], ApplyHub(s).clients[c], None)
  {
    if OnInsertPath(s.pc) {
      LoopStepInsert(s, c);
    } else if OnDeletePath(s.pc) {
      LoopStepDelete(s, c);
    } else if OnCastPath(s.pc) {
      LoopStepCast(s, c);
    } else {
      assert ApplyHub(s).clients == s.clients;
    }
  }

  lemma LoopStepInsert(s: State, c: Cid)
    requires HubStepEnabled(s) && OnInsertPath(s.pc) && c < |s.clients|
    ensures c < |ApplyInsert(s).clients| && LoopStep(s.clients[c], ApplyInsert(s).clients[c], None)
  {
  }

  lemma LoopStepDelete(s: State, c: Cid)
    requires HubStepEnabled(s) && OnDeletePath(s.pc) && c < |s.clients|
    ensures c < |ApplyDelete(s).clients| && LoopStep(s.clients[c], ApplyDelete(s).clients[c], None)
  {
  }

  lemma LoopStepCast(s: State, c: Cid)
    requires HubStepEnabled(s) && OnCastPath(s.pc) && c < |s.clients|
    ensures c < |ApplyCast(s).clients| && LoopStep(s.clients[c], ApplyCast(s).clients[c], None)
  {
  }

  lemma StepIsLoopStep(s: State, a: Action, c: Cid)
    requires Enabled(s, a) && c < |s.clients|
    ensures c < |Apply(s, a).clients| && LoopStep(s.clients[c], Apply(s, a).clients[c], EventOf(s, a, c))
  {
    if TaskAction(a) {
      LoopStepTask(s, a, c);
    } else if a.HubStep? {
      LoopStepHub(s, c);
    }
  }

  lemma HandlesMore(cl: Client, cl': Client, events: seq<Event>, e: Option<Event>)
    requires Handles(cl, events) && LoopStep(cl, cl', e)
    ensures Handles(cl', events + if e.Some? then [e.value] else [])
  {
    if e.Some? {
      FramesSnoc(events, e.value);
    } else {
      assert events + [] == events;
    }
  }

  lemma {:induction false} NoEventsBefore(acts: seq<Action>, s: State, c: Cid)
    requires Run(INITIAL, acts) == Some(s) && |s.clients| <= c
    ensures EventsOf(acts, c) == []
  {
    if acts != [] {
      var init, a := acts[..|acts| - 1], acts[|acts| - 1];
      var u := Run(INITIAL, init).value;
      ClientsOnlyGrow(u, a);
      NoEventsBefore(init, u, c);
    }
  }

  /** In every run each client's write loop is a run of this code: what it has attempted is
      what `WriteLoop` attempts on the events of that run, all of which it gets to, and it
      has returned and closed the connection exactly if the last of them ended it. */
  lemma {:induction false} RunIsALoop(acts: seq<Action>, s: State, c: Cid)
    requires Run(INITIAL, acts) == Some(s) && c < |s.clients|
    ensures var events := EventsOf(acts, c);
            && UpToEnd(events) == |events|
            && Handles(s.clients[c], events)
  {
    var init, a := acts[..|acts| - 1], acts[|acts| - 1];
    var u := Run(INITIAL, init).value;
    if c < |u.clients| {
      RunIsALoop(init, u, c);
      StepIsLoopStep(u, a, c);
      HandlesMore(u.clients[c], s.clients[c], EventsOf(init, c), EventOf(u, a, c));
    } else {
      NoEventsBefore(init, u, c);
      NewClientIsFresh(u, a, c);
    }
    UpToEndIs(EventsOf(acts, c), |EventsOf(acts, c)|);
  }

  /** The step by which the write loop of `c` handles an event. */
  function StepFor(c: Cid, e: Event): Action {
    match e
    case Received(_, ok) => WriterAttempt(c, ok)
    case ChannelClosed => WriterSeesClose(c)
    case Tick(ok) => PingTick(c, ok)
  }

  /** The event can come next: the message has been handed over, the channel is closed, or
      the timer fires while the loop waits; nothing is written on a closed connection. */
  predicate CanCome(cl: Client, e: Event) {
    match e
    case Received(m, ok) => cl.writer == Holding(m) && (ok ==> !cl.connClosed)
    case ChannelClosed => cl.writer.Waiting? && cl.sendClosed
    case Tick(ok) => cl.writer.Waiting? && (ok ==> !cl.connClosed)
  }

  /** Conversely, the events that can come next are exactly those that are a step of the
      system now. */
  lemma EventIsAStep(s: State, c: Cid, e: Event)
    requires c < |s.clients| && !s.panicked
    ensures CanCome(s.clients[c], e) <==> Enabled(s, StepFor(c, e)) && EventOf(s, StepFor(c, e), c) == Some(e)
  {
  }
}
