/** What the programs of the goroutines come to: who gets an offer and how many candidates,
    what goes through the hub's channels, and when a connection is closed. */
module HubMessages {
  import opened Wrappers
  import opened HubModel
  import opened HubSafety
  import opened HubGoroutines

  // ---------- one handler a client ----------

  lemma {:induction false} HandlerInRange(acts: seq<Action>, s: State, t: Tid)
    requires Run(INITIAL, acts) == Some(s) && t < |Origins(acts)| && Origins(acts)[t].Handler?
    ensures Origins(acts)[t].c < |s.clients|
  {
    var init, a := acts[..|acts| - 1], acts[|acts| - 1];
    var u := Run(INITIAL, init).value;
    ClientsOnlyGrow(u, a);
    if t < |Origins(init)| {
      HandlerInRange(init, u, t);
    }
  }

  lemma {:induction false} HandlerUnique(acts: seq<Action>, s: State, t: Tid, v: Tid)
    requires Run(INITIAL, acts) == Some(s) && t < |Origins(acts)| && v < |Origins(acts)|
    requires Origins(acts)[t].Handler? && Origins(acts)[v] == Origins(acts)[t]
    ensures t == v
  {
    var init := acts[..|acts| - 1];
    var u, n := Run(INITIAL, init).value, |Origins(init)|;
    if t < n && v < n {
      HandlerUnique(init, u, t, v);
    } else if t < n {
      HandlerInRange(init, u, t);
    } else if v < n {
      HandlerInRange(init, u, v);
    }
  }

  lemma {:induction false} HandlerExists(acts: seq<Action>, s: State, c: Cid) returns (t: Tid)
    requires Run(INITIAL, acts) == Some(s) && c < |s.clients|
    ensures t < |Origins(acts)| && Origins(acts)[t] == Handler(c)
  {
    var init, a := acts[..|acts| - 1], acts[|acts| - 1];
    var u := Run(INITIAL, init).value;
    if c < |u.clients| {
      t := HandlerExists(init, u, c);
    } else {
      OnlyArrivals(u, a);
      t := |Origins(init)|;
    }
  }

  lemma OnlyArrivals(u: State, a: Action)
    requires Enabled(u, a)
    ensures |Apply(u, a).clients| == |u.clients| + if a.Arrive? then 1 else 0
  {
    if a.HubStep? {
      HubAddsNoClient(u);
    }
  }

  // ---------- offers ----------

  function Count(ms: seq<Message>, m: Message): nat {
    if ms == [] then 0 else Count(ms[..|ms| - 1], m) + if ms[|ms| - 1] == m then 1 else 0
  }

  lemma CountSnoc(ms: seq<Message>, last: Message, m: Message)
    ensures Count(ms + [last], m) == Count(ms, m) + if last == m then 1 else 0
  {
    assert (ms + [last])[..|ms|] == ms;
  }

  lemma {:induction false} CountOthers(taken: seq<Message>, m: Message)
    requires !m.Info?
    ensures Count(Others(taken), m) == Count(taken, m)
  {
    if taken != [] {
      var n := |taken| - 1;
      CountOthers(taken[..n], m);
      CountSnoc(Others(taken[..n]), taken[n], m);
      assert Others(taken[..n]) + [] == Others(taken[..n]);
    }
  }

  lemma CountSent(ms: seq<Message>, os: seq<Origin>, a: Action, c: Cid, m: Message)
    ensures Count(ms + SentBy(os, a, c), m) == Count(ms, m) + if SentBy(os, a, c) == [m] then 1 else 0
  {
    var more := SentBy(os, a, c);
    if more == [] {
      assert ms + more == ms;
    } else {
      var sent := more[0];
      assert more == [sent];
      assert more == [m] <==> sent == m;
      CountSnoc(ms, sent, m);
    }
  }

  lemma {:induction false} InOwn(acts: seq<Action>, t: Tid, a: Action)
    requires OwnStep(a, t)
    ensures a in Own(acts, t) <==> a in acts
  {
    if acts != [] {
      var n := |acts| - 1;
      InOwn(acts[..n], t, a);
      assert acts == acts[..n] + [acts[n]];
    }
  }

  /** A goroutine sends at most once, after a check that found its client. */
  lemma SendsOnce(o: Origin, t: Tid, found: bool, own: seq<Action>, task: Task)
    requires Runs(o, t, found, own, task)
    ensures GuardSend(t) in own ==> found
    ensures found && GuardRelease(t) in own ==> GuardSend(t) in own
    ensures own != [] && own[|own| - 1] == GuardSend(t) ==> GuardSend(t) !in own[..|own| - 1]
  {
    var p := Program(o, t, found);
    assert forall k | 0 <= k < |own| :: own[k] == p[k];
    if found {
      var j := if o.Handler? then 3 else 2;
      assert p[j] == GuardSend(t) && forall k | 0 <= k < |p| && k != j :: p[k] != GuardSend(t);
      assert p[j + 1] == GuardRelease(t) && forall k | 0 <= k < |p| && k != j + 1 :: p[k] != GuardRelease(t);
    } else {
      assert forall k | 0 <= k < |p| :: p[k] != GuardSend(t);
    }
  }

  /** A goroutine that sends now has not sent before. */
  lemma FirstSend(init: seq<Action>, u: State, t: Tid)
    requires Run(INITIAL, init) == Some(u) && Enabled(u, GuardSend(t))
    ensures t < |Origins(init)| && GuardSend(t) !in init
  {
    var acts := init + [GuardSend(t)];
    RunSnoc(INITIAL, init, GuardSend(t));
    RunsItsProgram(init, u, t);
    RunsItsProgram(acts, Apply(u, GuardSend(t)), t);
    assert acts[..|init|] == init;
    var own := Own(acts, t);
    SendsOnce(Origins(acts)[t], t, Found(acts, Origins(acts)[t], t), own, Apply(u, GuardSend(t)).tasks[t]);
    assert own == Own(init, t) + [GuardSend(t)];
    InOwn(init, t, GuardSend(t));
  }

  lemma {:induction false} OffersSent(acts: seq<Action>, s: State, t: Tid, c: Cid)
    requires Run(INITIAL, acts) == Some(s) && t < |Origins(acts)| && Origins(acts)[t] == Handler(c)
    ensures Count(Sent(acts, c), Offer) == if GuardSend(t) in acts then 1 else 0
  {
    var init, a := acts[..|acts| - 1], acts[|acts| - 1];
    var u, os := Run(INITIAL, init).value, Origins(init);
    assert acts == init + [a];
    CountSent(Sent(init, c), os, a, c, Offer);
    if t < |os| {
      OffersSent(init, u, t, c);
      if a == GuardSend(t) {
        FirstSend(init, u, t);
      } else if a.GuardSend? && a.t < |os| && os[a.t] == Handler(c) {
        HandlerUnique(init, u, t, a.t);
      }
    } else {
      NothingSentYet(init, u, a, t, c);
    }
  }

  /** At the arrival of a client nothing has been sent to it or by its handler. */
  lemma NothingSentYet(init: seq<Action>, u: State, a: Action, t: Tid, c: Cid)
    requires Run(INITIAL, init) == Some(u) && Enabled(u, a)
    requires |Origins(init)| <= t < |Origins(init)| + |Started(u, a)|
    requires Started(u, a)[t - |Origins(init)|] == Handler(c)
    ensures Sent(init, c) == [] && GuardSend(t) !in init + [a] && SentBy(Origins(init), a, c) == []
  {
    OriginsCount(init, u);
    NothingSentBefore(init, u, c);
    NotYetStarted(init, u, t, Handler(c));
    InOwn(init, t, GuardSend(t));
  }

  /** Every client gets at most one offer, and it gets it exactly if its handler found it in
      the map and has sent; so once the handler has given the lock back the offer was skipped
      if and only if the check did not find the client. */
  lemma OfferExactly(acts: seq<Action>, s: State, t: Tid, c: Cid)
    requires Run(INITIAL, acts) == Some(s) && t < |Origins(acts)| && Origins(acts)[t] == Handler(c)
    ensures c < |s.clients|
    ensures var found, n := Found(acts, Handler(c), t), Count(s.clients[c].taken, Offer);
            && n == (if found && GuardSend(t) in acts then 1 else 0)
            && (GuardRelease(t) in acts ==> (n == 0 <==> !found))
  {
    HandlerInRange(acts, s, t);
    OriginsCount(acts, s);
    RunsItsProgram(acts, s, t);
    MessagesExactly(acts, s, c);
    CountOthers(s.clients[c].taken, Offer);
    OffersSent(acts, s, t, c);
    SendsOnce(Handler(c), t, Found(acts, Handler(c), t), Own(acts, t), s.tasks[t]);
    InOwn(acts, t, GuardSend(t));
    InOwn(acts, t, GuardRelease(t));
  }

  /** What a check finds: the client, exactly between its insertion and its deletion. */
  lemma CheckFinds(acts: seq<Action>, s: State, t: Tid)
    requires Run(INITIAL, acts) == Some(s) && Enabled(s, GuardCheck(t))
    ensures t < |Origins(acts)| && !Origins(acts)[t].Carrier? && Origins(acts)[t].c < |s.clients|
    ensures var o := Origins(acts)[t];
            var cl := s.clients[o.c];
            && !Found(acts, o, t)
            && (Found(acts + [GuardCheck(t)], o, t) <==> cl.joined.Some? && cl.left.None?)
  {
    RunsItsProgram(acts, s, t);
    ReachableIsSound(acts);
    var o := Origins(acts)[t];
    ChecksForItsClient(o, t, Found(acts, o, t), Own(acts, t), s.tasks[t]);
    assert TaskOk(s, s.tasks[t]) && ClientOk(s, o.c);
    assert (acts + [GuardCheck(t)])[..|acts|] == acts;
  }

  lemma ChecksForItsClient(o: Origin, t: Tid, found: bool, own: seq<Action>, task: Task)
    requires Runs(o, t, found, own, task) && task.Guarded? && task.pc.Checks?
    ensures !o.Carrier? && task.c == o.c && !found
  {
  }

  // ---------- candidates ----------

  /** The candidate callbacks of `c` that have sent. */
  function Senders(os: seq<Origin>, acts: seq<Action>, c: Cid): nat {
    if os == [] then 0
    else
      var t := |os| - 1;
      Senders(os[..t], acts, c) + if os[t] == OnCandidate(c) && GuardSend(t) in acts then 1 else 0
  }

  lemma {:induction false} SendersSame(os: seq<Origin>, acts: seq<Action>, more: seq<Action>, c: Cid)
    requires forall t: Tid | t < |os| :: GuardSend(t) in more <==> GuardSend(t) in acts
    ensures Senders(os, more, c) == Senders(os, acts, c)
  {
    if os != [] {
      SendersSame(os[..|os| - 1], acts, more, c);
    }
  }

  lemma {:induction false} SendersOneMore(os: seq<Origin>, acts: seq<Action>, t: Tid, c: Cid)
    requires t < |os| && GuardSend(t) !in acts
    ensures Senders(os, acts + [GuardSend(t)], c) == Senders(os, acts, c) + if os[t] == OnCandidate(c) then 1 else 0
  {
    var n := |os| - 1;
    if t == n {
      SendersSame(os[..n], acts, acts + [GuardSend(t)], c);
    } else {
      SendersOneMore(os[..n], acts, t, c);
    }
  }

  /** Goroutines just started have not sent. */
  lemma SendersStarted(acts: seq<Action>, u: State, a: Action, c: Cid)
    requires Run(INITIAL, acts) == Some(u) && Enabled(u, a)
    ensures var os := Origins(acts); Senders(os + Started(u, a), acts + [a], c) == Senders(os, acts + [a], c)
  {
    var os, begun := Origins(acts), Started(u, a);
    if begun == [] {
      assert os + begun == os;
    } else {
      OriginsCount(acts, u);
      NotYetStarted(acts, u, |os|, begun[0]);
      InOwn(acts, |os|, GuardSend(|os|));
      assert (os + begun)[..|os|] == os;
    }
  }

  lemma SendersStep(init: seq<Action>, u: State, a: Action, c: Cid)
    requires Run(INITIAL, init) == Some(u) && Enabled(u, a)
    ensures var os := Origins(init);
            Senders(os + Started(u, a), init + [a], c) ==
            Senders(os, init, c) + if SentBy(os, a, c) == [Candidate] then 1 else 0
  {
    var os := Origins(init);
    SendersStarted(init, u, a, c);
    if a.GuardSend? {
      FirstSend(init, u, a.t);
      SendersOneMore(os, init, a.t, c);
    } else {
      SendersSame(os, init, init + [a], c);
    }
  }

  lemma {:induction false} CandidatesSent(acts: seq<Action>, s: State, c: Cid)
    requires Run(INITIAL, acts) == Some(s)
    ensures Count(Sent(acts, c), Candidate) == Senders(Origins(acts), acts, c)
  {
    if acts != [] {
      var init, a := acts[..|acts| - 1], acts[|acts| - 1];
      var u, os := Run(INITIAL, init).value, Origins(init);
      assert acts == init + [a];
      CandidatesSent(init, u, c);
      CountSent(Sent(init, c), os, a, c, Candidate);
      SendersStep(init, u, a, c);
    }
  }

  /** Every client gets as many candidates as there were callbacks of its connection that
      sent, and a callback sends only if its check found the client, and then once. */
  lemma CandidatesExactly(acts: seq<Action>, s: State, c: Cid)
    requires Run(INITIAL, acts) == Some(s) && c < |s.clients|
    ensures Count(s.clients[c].taken, Candidate) == Senders(Origins(acts), acts, c)
    ensures forall t: Tid | t < |Origins(acts)| && Origins(acts)[t] == OnCandidate(c) ::
              && (GuardSend(t) in acts ==> Found(acts, OnCandidate(c), t))
              && (GuardRelease(t) in acts && Found(acts, OnCandidate(c), t) ==> GuardSend(t) in acts)
  {
    MessagesExactly(acts, s, c);
    CountOthers(s.clients[c].taken, Candidate);
    CandidatesSent(acts, s, c);
    OriginsCount(acts, s);
    forall t: Tid | t < |Origins(acts)| && Origins(acts)[t] == OnCandidate(c)
      ensures GuardSend(t) in acts ==> Found(acts, OnCandidate(c), t)
      ensures GuardRelease(t) in acts && Found(acts, OnCandidate(c), t) ==> GuardSend(t) in acts
    {
      RunsItsProgram(acts, s, t);
      SendsOnce(OnCandidate(c), t, Found(acts, OnCandidate(c), t), Own(acts, t), s.tasks[t]);
      InOwn(acts, t, GuardSend(t));
      InOwn(acts, t, GuardRelease(t));
    }
  }

  // ---------- the hub's channels ----------

  function ClientOf(os: seq<Origin>, t: Tid): seq<Cid> {
    if t < |os| && !os[t].Carrier? then [os[t].c] else []
  }

  /** The client a step registers (or unregisters): the one its goroutine works for. */
  function Asked(os: seq<Origin>, a: Action, register: bool): seq<Cid> {
    if register then (if a.Enroll? then ClientOf(os, a.t) else [])
    else if a.EnqueueUnregister? then ClientOf(os, a.t)
    else []
  }

  /** The clients registered by their handlers, or unregistered by handlers and
      connection-state callbacks, in order. */
  function Requests(acts: seq<Action>, register: bool): seq<Cid> {
    if acts == [] then []
    else
      var init := acts[..|acts| - 1];
      Requests(init, register) + Asked(Origins(init), acts[|acts| - 1], register)
  }

  /** The client the hub has turned to in a step, by where its loop then is. */
  function Turned(a: Action, after: HubPc, register: bool): seq<Cid> {
    if register then (if a.TakeRegister? && after.InsertLock? then [after.c] else [])
    else if a.TakeUnregister? && after.RemoveRLock? then [after.c]
    else []
  }

  /** The clients the hub has turned to, for insertion or for removal, in order. */
  function TurnedTo(acts: seq<Action>, register: bool): seq<Cid> {
    if acts == [] then []
    else
      var r := Run(INITIAL, acts);
      TurnedTo(acts[..|acts| - 1], register)
      + if r.Some? then Turned(acts[|acts| - 1], r.value.pc, register) else []
  }

  function Queue(s: State, register: bool): seq<Cid> {
    if register then s.registerChan else s.unregisterChan
  }

  lemma QueueKept(u: State, a: Action, register: bool)
    requires Enabled(u, a) && !a.Enroll? && !a.EnqueueUnregister? && !a.TakeRegister? && !a.TakeUnregister?
    ensures Queue(Apply(u, a), register) == Queue(u, register)
  {
    if a.HubStep? {
      HubLeavesQueues(u, register);
    }
  }

  lemma HubLeavesQueues(u: State, register: bool)
    requires HubStepEnabled(u)
    ensures Queue(ApplyHub(u), register) == Queue(u, register)
  {
    if OnDeletePath(u.pc) {
      assert ApplyDelete(u).registerChan == u.registerChan && ApplyDelete(u).unregisterChan == u.unregisterChan;
    } else if OnCastPath(u.pc) {
      assert ApplyCast(u).registerChan == u.registerChan && ApplyCast(u).unregisterChan == u.unregisterChan;
    }
  }

  lemma AsksForItsClient(o: Origin, t: Tid, found: bool, own: seq<Action>, task: Task)
    requires Runs(o, t, found, own, task) && (task.Registering? || task.Unregistering?)
    ensures !o.Carrier? && task.c == o.c
  {
  }

  lemma QueueGrows(u: State, a: Action, register: bool)
    requires Enabled(u, a) && (a.Enroll? || a.EnqueueUnregister?)
    ensures Queue(Apply(u, a), register) == Queue(u, register) + if a.Enroll? == register then [u.tasks[a.t].c] else []
  {
  }

  lemma QueueShrinks(u: State, a: Action, register: bool)
    requires Enabled(u, a) && (a.TakeRegister? || a.TakeUnregister?)
    ensures Queue(u, register) == Turned(a, Apply(u, a).pc, register) + Queue(Apply(u, a), register)
  {
  }

  lemma AsksItsClient(init: seq<Action>, u: State, a: Action, register: bool)
    requires Run(INITIAL, init) == Some(u) && Enabled(u, a) && (a.Enroll? || a.EnqueueUnregister?)
    ensures Asked(Origins(init), a, register) == if a.Enroll? == register then [u.tasks[a.t].c] else []
    ensures Turned(a, Apply(u, a).pc, register) == []
  {
    RunsItsProgram(init, u, a.t);
    var o := Origins(init)[a.t];
    AsksForItsClient(o, a.t, Found(init, o, a.t), Own(init, a.t), u.tasks[a.t]);
  }

  lemma QueueStep(init: seq<Action>, u: State, a: Action, register: bool)
    requires Run(INITIAL, init) == Some(u) && Enabled(u, a)
    ensures Queue(u, register) + Asked(Origins(init), a, register) ==
            Turned(a, Apply(u, a).pc, register) + Queue(Apply(u, a), register)
  {
    if a.Enroll? || a.EnqueueUnregister? {
      AsksItsClient(init, u, a, register);
      QueueGrows(u, a, register);
    } else if a.TakeRegister? || a.TakeUnregister? {
      QueueShrinks(u, a, register);
    } else {
      QueueKept(u, a, register);
    }
  }

  lemma Through(asked: seq<Cid>, turned: seq<Cid>, q: seq<Cid>, x: seq<Cid>, y: seq<Cid>, q': seq<Cid>)
    requires asked == turned + q && q + x == y + q'
    ensures asked + x == turned + y + q'
  {
    assert turned + q + x == turned + (q + x);
    assert turned + y + q' == turned + (y + q');
  }

  /** The hub's channels lose, add and reorder nothing: the clients it has turned to and then
      those still queued are those registered, or unregistered, in order. */
  lemma {:induction false} ChannelsAreFifo(acts: seq<Action>, s: State, register: bool)
    requires Run(INITIAL, acts) == Some(s)
    ensures Requests(acts, register) == TurnedTo(acts, register) + Queue(s, register)
  {
    if acts != [] {
      var init, a := acts[..|acts| - 1], acts[|acts| - 1];
      var u := Run(INITIAL, init).value;
      ChannelsAreFifo(init, u, register);
      QueueStep(init, u, a, register);
      Through(Requests(init, register), TurnedTo(init, register), Queue(u, register),
              Asked(Origins(init), a, register), Turned(a, s.pc, register), Queue(s, register));
    }
  }

  // ---------- closed connections ----------

  /** The handler of `c` has closed the connection after its last read. */
  predicate HandlerClosed(acts: seq<Action>, c: Cid) {
    acts != [] &&
      var init, a := acts[..|acts| - 1], acts[|acts| - 1];
      HandlerClosed(init, c) || (a.CloseAfterRead? && a.t < |Origins(init)| && Origins(init)[a.t] == Handler(c))
  }

  /** Closed by its write loop on return or by the hub on removal. */
  predicate OthersClosed(s: State, c: Cid)
    requires c < |s.clients|
  {
    s.clients[c].writer.Returned? || s.clients[c].sendClosed || s.pc == CloseSend(c)
  }

  /** The connection is closed, or by whom it is now. */
  predicate ClosedBy(s: State, c: Cid, byHandler: bool)
    requires c < |s.clients|
  {
    s.clients[c].connClosed <==> byHandler || OthersClosed(s, c)
  }

  lemma ClosedHub(s: State, c: Cid, closed: bool)
    requires Sound(s) && HubStepEnabled(s) && c < |s.clients| && ClosedBy(s, c, closed)
    ensures c < |ApplyHub(s).clients| && ClosedBy(ApplyHub(s), c, closed)
  {
    assert ClientOk(s, c);
    if OnDeletePath(s.pc) {
      assert ClientOk(s, s.pc.c);
      ClosedDelete(s, c, closed);
    } else if s.pc.CastSend? {
      assert ClientOk(s, s.pc.c);
    } else {
      ClosedKept(s, c);
    }
  }

  lemma ClosedDelete(s: State, c: Cid, closed: bool)
    requires HubStepEnabled(s) && OnDeletePath(s.pc) && c < |s.clients| && ClosedBy(s, c, closed)
    requires ClientOk(s, c) && (s.pc.CloseSend? ==> !s.clients[s.pc.c].sendClosed)
    ensures c < |ApplyDelete(s).clients| && ClosedBy(ApplyDelete(s), c, closed)
  {
  }

  lemma ClosedKept(s: State, c: Cid)
    requires HubStepEnabled(s) && !OnDeletePath(s.pc) && !s.pc.CastSend? && c < |s.clients|
    ensures c < |ApplyHub(s).clients| && ApplyHub(s).clients[c].connClosed == s.clients[c].connClosed
    ensures OthersClosed(ApplyHub(s), c) <==> OthersClosed(s, c)
  {
  }

  lemma ClosedTask(s: State, a: Action, c: Cid, closed: bool)
    requires Sound(s) && Enabled(s, a) && TaskAction(a) && c < |s.clients| && ClosedBy(s, c, closed)
    ensures c < |ApplyTask(s, a).clients|
    ensures ClosedBy(ApplyTask(s, a), c, closed || (a.CloseAfterRead? && s.tasks[a.t].c == c))
  {
    assert a.GuardSend? ==> TaskOk(s, s.tasks[a.t]) && ClientOk(s, s.tasks[a.t].c);
  }

  lemma ClosedElse(s: State, a: Action, c: Cid, closed: bool)
    requires Enabled(s, a) && !TaskAction(a) && !a.HubStep? && c < |s.clients| && ClosedBy(s, c, closed)
    ensures c < |Apply(s, a).clients| && ClosedBy(Apply(s, a), c, closed)
  {
  }

  lemma ClosesItsClient(o: Origin, t: Tid, found: bool, own: seq<Action>, task: Task)
    requires Runs(o, t, found, own, task) && task.ClosingConn?
    ensures o == Handler(task.c)
  {
  }

  lemma {:induction false} NotClosedBefore(acts: seq<Action>, s: State, c: Cid)
    requires Run(INITIAL, acts) == Some(s) && |s.clients| <= c
    ensures !HandlerClosed(acts, c)
  {
    if acts != [] {
      var init, a := acts[..|acts| - 1], acts[|acts| - 1];
      var u := Run(INITIAL, init).value;
      ClientsOnlyGrow(u, a);
      NotClosedBefore(init, u, c);
      if a.CloseAfterRead? && a.t < |Origins(init)| && Origins(init)[a.t] == Handler(c) {
        HandlerInRange(init, u, a.t);
      }
    }
  }

  /** A connection is closed exactly if its own handler closed it, its write loop returned,
      or the hub closed it on removal. */
  lemma {:induction false} ClosedExactly(acts: seq<Action>, s: State, c: Cid)
    requires Run(INITIAL, acts) == Some(s) && c < |s.clients|
    ensures s.clients[c].connClosed <==> HandlerClosed(acts, c) || OthersClosed(s, c)
  {
    var init, a := acts[..|acts| - 1], acts[|acts| - 1];
    var u := Run(INITIAL, init).value;
    ReachableIsSound(init);
    if |u.clients| <= c {
      NotClosedBefore(acts[..|acts| - 1], u, c);
      OnlyArrivals(u, a);
      ReachableIsSound(acts);
      assert ClientOk(s, c);
    } else {
      ClosedExactly(init, u, c);
      var closed := HandlerClosed(init, c);
      if a.HubStep? {
        ClosedHub(u, c, closed);
      } else if TaskAction(a) {
        ClosedTask(u, a, c, closed);
        if a.CloseAfterRead? {
          RunsItsProgram(init, u, a.t);
          var o := Origins(init)[a.t];
          ClosesItsClient(o, a.t, Found(init, o, a.t), Own(init, a.t), u.tasks[a.t]);
        }
      } else {
        ClosedElse(u, a, c, closed);
      }
    }
  }

  // ---------- when the outside world can act ----------

  /** A goroutine is still registering exactly if it is a handler that has taken no step. */
  lemma RegisteringIsNew(o: Origin, t: Tid, found: bool, own: seq<Action>, task: Task)
    requires Runs(o, t, found, own, task)
    ensures task.Registering? <==> o.Handler? && Enroll(t) !in own
    ensures task.Registering? ==> task.c == o.c
  {
    var p := Program(o, t, found);
    assert forall k | 0 <= k < |own| :: own[k] == p[k];
    if o.Handler? && own != [] {
      assert own[0] == Enroll(t);
    }
  }

  lemma ReadingIsBetween(o: Origin, t: Tid, found: bool, own: seq<Action>, task: Task)
    requires Runs(o, t, found, own, task)
    ensures task.ReadingSocket? <==> o.Handler? && GuardRelease(t) in own && ReadFails(t) !in own
  {
    var p := Program(o, t, found);
    assert forall k | 0 <= k < |own| :: own[k] == p[k];
    if o.Handler? {
      var j := if found then 4 else 3;
      assert p[j] == GuardRelease(t) && forall k | 0 <= k < |p| && k != j :: p[k] != GuardRelease(t);
      assert p[j + 1] == ReadFails(t) && forall k | 0 <= k < |p| && k != j + 1 :: p[k] != ReadFails(t);
      if |own| > j {
        assert own[j] == GuardRelease(t);
      }
      if |own| > j + 1 {
        assert own[j + 1] == ReadFails(t);
      }
    }
  }

  lemma StillRegistering(acts: seq<Action>, s: State, t: Tid, c: Cid)
    requires Run(INITIAL, acts) == Some(s) && t < |Origins(acts)| && Origins(acts)[t] == Handler(c)
    ensures Registering(c) in s.tasks <==> Enroll(t) !in acts
  {
    OriginsCount(acts, s);
    RunsItsProgram(acts, s, t);
    RegisteringIsNew(Handler(c), t, Found(acts, Handler(c), t), Own(acts, t), s.tasks[t]);
    InOwn(acts, t, Enroll(t));
    if Registering(c) in s.tasks {
      var v: Tid :| v < |s.tasks| && s.tasks[v] == Registering(c);
      RunsItsProgram(acts, s, v);
      var o := Origins(acts)[v];
      RegisteringIsNew(o, v, Found(acts, o, v), Own(acts, v), s.tasks[v]);
      HandlerUnique(acts, s, t, v);
    }
  }

  /** A client can always arrive; its callbacks can fire from the moment its handler has sent
      the registration; and its socket can fail from the end of the guarded offer on, once. */
  lemma OutsideExactly(acts: seq<Action>, s: State, t: Tid, c: Cid)
    requires Run(INITIAL, acts) == Some(s) && t < |Origins(acts)| && Origins(acts)[t] == Handler(c)
    ensures Enabled(s, Arrive)
    ensures Enabled(s, FireCandidate(c)) <==> Enroll(t) in acts
    ensures Enabled(s, FireStateChange(c)) <==> Enroll(t) in acts
    ensures Enabled(s, ReadFails(t)) <==> GuardRelease(t) in acts && ReadFails(t) !in acts
  {
    ReachableIsSound(acts);
    HandlerInRange(acts, s, t);
    OriginsCount(acts, s);
    StillRegistering(acts, s, t, c);
    RunsItsProgram(acts, s, t);
    ReadingIsBetween(Handler(c), t, Found(acts, Handler(c), t), Own(acts, t), s.tasks[t]);
    InOwn(acts, t, GuardRelease(t));
    InOwn(acts, t, ReadFails(t));
  }
}
