/** When a broadcast under way can still be lost, that is, reach a state from which the hub
    never comes back: exactly, with and without failing writes. */
module HubLoss {
  import opened Wrappers
  import opened HubModel
  import opened HubSafety
  import opened HubBroadcast
  import opened HubTermination
  import opened HubReturn

  /** The broadcast that made the log what it is, is under way for good. */
  ghost predicate Lost(v: State, log: seq<nat>) {
    OnCastPath(v.pc) && v.log == log && !Returns(v)
  }

  ghost predicate CanBeLost(s: State) {
    exists more :: Run(s, more).Some? && Lost(Run(s, more).value, s.log)
  }

  /** No write fails and no handler closes its client's connection. */
  predicate Harmless(a: Action) {
    !a.CloseAfterRead? && !(a.PingTick? && !a.ok) && !(a.WriterAttempt? && !a.ok)
  }

  predicate AllHarmless(acts: seq<Action>) {
    forall k | 0 <= k < |acts| :: Harmless(acts[k])
  }

  ghost predicate CanBeLostHarmlessly(s: State) {
    exists more :: Run(s, more).Some? && AllHarmless(more) && Lost(Run(s, more).value, s.log)
  }

  predicate SomeOwed(s: State) {
    exists c: Cid | c < |s.clients| :: Owed(s, c)
  }

  predicate Open(cl: Client) {
    !cl.writer.Returned? && !cl.connClosed
  }

  /** Every client still owed the broadcast has its write loop and its connection. */
  predicate OwedOpen(s: State) {
    forall c: Cid | c < |s.clients| && Owed(s, c) :: Open(s.clients[c])
  }

  // ---------- the same broadcast ----------

  /** Still the broadcast of `log`; another one makes the log longer. */
  predicate Still(v: State, log: seq<nat>) {
    OnCastPath(v.pc) && v.log == log
  }

  predicate LogFrom(v: State, log: seq<nat>) {
    v.log == log || |v.log| > |log|
  }

  /** A broadcast under way was under way before, and owes no one new. */
  lemma StillStep(u: State, a: Action, log: seq<nat>)
    requires LifeOk(u) && Enabled(u, a) && LogFrom(u, log)
    ensures LogFrom(Apply(u, a), log)
    ensures Still(Apply(u, a), log) ==> Still(u, log)
    ensures Still(Apply(u, a), log) ==>
              forall c: Cid | c < |Apply(u, a).clients| && Owed(Apply(u, a), c) :: c < |u.clients| && Owed(u, c)
  {
    if !HubAction(a) {
      OthersLeaveHub(u, a);
    } else if a.HubStep? {
      HubLeavesLog(u);
      if OnCastPath(u.pc) {
        CastOwesNoMore(u);
      }
    } else {
      TakeOwesNoMore(u, a);
    }
  }

  lemma HubLeavesLog(u: State)
    requires HubStepEnabled(u)
    ensures ApplyHub(u).log == u.log
    ensures OnCastPath(ApplyHub(u).pc) ==> OnCastPath(u.pc)
  {
  }

  lemma CastOwesNoMore(u: State)
    requires LifeOk(u) && HubStepEnabled(u) && OnCastPath(u.pc)
    ensures var v := ApplyCast(u);
            forall c: Cid | c < |v.clients| && Owed(v, c) :: c < |u.clients| && Owed(u, c)
  {
  }

  lemma TakeOwesNoMore(u: State, a: Action)
    requires LifeOk(u) && Enabled(u, a) && HubAction(a) && !a.HubStep?
    ensures var v := Apply(u, a);
            && (a.TakeBroadcast? ==> |v.log| == |u.log| + 1)
            && (!a.TakeBroadcast? ==> v.log == u.log && (OnCastPath(v.pc) ==> a.HubPick?))
            && v.clients == u.clients
            && (a.HubPick? ==> forall c: Cid | Owed(v, c) :: Owed(u, c))
  {
  }

  // ---------- with failing writes ----------

  /** If no one is owed anything any more, no one will be. */
  lemma {:induction false} NoneOwedStays(s: State, more: seq<Action>)
    requires Sound(s) && OnCastPath(s.pc) && !SomeOwed(s) && Run(s, more).Some?
    ensures var v := Run(s, more).value;
            Sound(v) && LogFrom(v, s.log) && (Still(v, s.log) ==> !SomeOwed(v))
  {
    if more != [] {
      var init, a := more[..|more| - 1], more[|more| - 1];
      NoneOwedStays(s, init);
      var u := Run(s, init).value;
      SoundStep(u, a);
      StillStep(u, a, s.log);
    }
  }

  /** The write loop of an owed client fails. */
  lemma FailOne(s: State, c: Cid) returns (more: seq<Action>)
    requires Sound(s) && OnCastPath(s.pc) && c < |s.clients| && Owed(s, c)
    ensures Run(s, more).Some? && Lost(Run(s, more).value, s.log)
  {
    more := [];
    var v := s;
    if Receptive(s.clients[c]) {
      var a := if s.clients[c].writer.Waiting? then PingTick(c, false) else WriterAttempt(c, false);
      RunCons(s, a, []);
      SoundStep(s, a);
      more := [a];
      v := Apply(s, a);
      assert [a] + [] == [a];
    }
    assert Owed(v, c) && !Receptive(v.clients[c]);
    ReturnsFrom(v);
  }

  /** If writes may fail, a broadcast can be lost as long as anyone is still owed it. */
  lemma LostExactly(acts: seq<Action>, s: State)
    requires Run(INITIAL, acts) == Some(s) && OnCastPath(s.pc)
    ensures CanBeLost(s) <==> SomeOwed(s)
  {
    ReachableIsSound(acts);
    if SomeOwed(s) {
      var c: Cid :| c < |s.clients| && Owed(s, c);
      var more := FailOne(s, c);
    } else {
      forall more | Run(s, more).Some?
        ensures !Lost(Run(s, more).value, s.log)
      {
        NoneOwedStays(s, more);
        ReturnsFrom(Run(s, more).value);
      }
    }
  }

  // ---------- without ----------

  lemma OpenStaysTask(u: State, a: Action, c: Cid)
    requires Enabled(u, a) && TaskAction(a) && Harmless(a) && c < |u.clients| && Open(u.clients[c])
    ensures c < |ApplyTask(u, a).clients| && Open(ApplyTask(u, a).clients[c])
  {
  }

  lemma OpenStaysCast(u: State, c: Cid)
    requires HubStepEnabled(u) && OnCastPath(u.pc) && c < |u.clients| && Open(u.clients[c])
    ensures c < |ApplyCast(u).clients| && Open(ApplyCast(u).clients[c])
  {
  }

  /** A registered client stays open while the hub broadcasts and nothing fails. */
  lemma OpenStays(u: State, a: Action, c: Cid)
    requires LifeOk(u) && OnCastPath(u.pc) && Enabled(u, a) && Harmless(a)
    requires c < |u.clients| && Owed(u, c) && Open(u.clients[c])
    ensures c < |Apply(u, a).clients| && Open(Apply(u, a).clients[c])
  {
    assert ClientOk(u, c) && c in u.members;
    if TaskAction(a) {
      OpenStaysTask(u, a, c);
    } else if a.HubStep? {
      OpenStaysCast(u, c);
    } else if HubAction(a) {
      assert Apply(u, a).clients == u.clients;
    }
  }

  lemma OwedOpenStep(u: State, a: Action, log: seq<nat>)
    requires Sound(u) && Enabled(u, a) && Harmless(a) && LogFrom(u, log)
    requires Still(u, log) ==> OwedOpen(u)
    ensures Still(Apply(u, a), log) ==> OwedOpen(Apply(u, a))
  {
    StillStep(u, a, log);
    var v := Apply(u, a);
    if Still(v, log) {
      forall c: Cid | c < |v.clients| && Owed(v, c)
        ensures Open(v.clients[c])
      {
        OpenStays(u, a, c);
      }
    }
  }

  lemma {:induction false} OwedOpenStays(s: State, more: seq<Action>)
    requires Sound(s) && OnCastPath(s.pc) && OwedOpen(s) && Run(s, more).Some? && AllHarmless(more)
    ensures var v := Run(s, more).value;
            Sound(v) && LogFrom(v, s.log) && (Still(v, s.log) ==> OwedOpen(v))
  {
    if more != [] {
      var init, a := more[..|more| - 1], more[|more| - 1];
      OwedOpenStays(s, init);
      var u := Run(s, init).value;
      SoundStep(u, a);
      StillStep(u, a, s.log);
      OwedOpenStep(u, a, s.log);
    }
  }

  lemma OpenIsReceptive(s: State)
    requires OwedOpen(s)
    ensures OwedReceptive(s)
  {
  }

  lemma Then(s: State, more: seq<Action>, v: State, a: Action) returns (longer: seq<Action>, w: State)
    requires Run(s, more) == Some(v) && AllHarmless(more) && Sound(v) && Enabled(v, a) && Harmless(a)
    ensures AllHarmless(longer) && w == Apply(v, a) && Sound(w) && Run(s, longer) == Some(w)
  {
    longer, w := more + [a], Apply(v, a);
    RunSnoc(s, more, a);
    SoundStep(v, a);
  }

  /** A callback slips in while the hub broadcasts: its message is one too many for a write
      loop whose connection is closed. */
  lemma SlipIn(s: State, c: Cid) returns (more: seq<Action>)
    requires Sound(s) && OnCastPath(s.pc) && c < |s.clients| && Owed(s, c)
    requires s.clients[c].writer.Waiting? && s.clients[c].connClosed
    ensures AllHarmless(more) && Run(s, more).Some? && Lost(Run(s, more).value, s.log)
  {
    var v;
    more, v := SlipInReads(s, c);
    SentInVain(v, |s.tasks|, c);
    more, v := Then(s, more, v, GuardSend(|s.tasks|));
  }

  /** The message goes through, but the write loop cannot write it and come back. */
  lemma SentInVain(v: State, t: Tid, c: Cid)
    requires Sound(v) && OnCastPath(v.pc) && c < |v.clients| && Owed(v, c)
    requires v.clients[c].writer.Waiting? && v.clients[c].connClosed
    requires GuardAt(v, t, Sends) && v.tasks[t].c == c
    ensures Enabled(v, GuardSend(t)) && Lost(Apply(v, GuardSend(t)), v.log)
  {
    assert ClientOk(v, c) && c in v.members;
    SoundStep(v, GuardSend(t));
    var w := Apply(v, GuardSend(t));
    assert Owed(w, c) && !Receptive(w.clients[c]);
    ReturnsFrom(w);
  }

  lemma SlipInReads(s: State, c: Cid) returns (more: seq<Action>, v: State)
    requires Sound(s) && OnCastPath(s.pc) && c < |s.clients| && Owed(s, c)
    ensures AllHarmless(more) && Run(s, more) == Some(v) && Sound(v)
    ensures v == s.(tasks := v.tasks, lock := v.lock) && GuardAt(v, |s.tasks|, Sends) && v.tasks[|s.tasks|].c == c
  {
    more, v := SlipInLocks(s, c);
    assert c in s.members;
    more, v := Then(s, more, v, GuardCheck(|s.tasks|));
  }

  lemma SlipInLocks(s: State, c: Cid) returns (more: seq<Action>, v: State)
    requires Sound(s) && OnCastPath(s.pc) && c < |s.clients| && Owed(s, c)
    ensures AllHarmless(more) && Run(s, more) == Some(v) && Sound(v)
    ensures v == s.(tasks := v.tasks, lock := v.lock) && GuardAt(v, |s.tasks|, Checks) && v.tasks[|s.tasks|].c == c
  {
    CallbacksAreSet(s, c);
    more, v := Then(s, [], s, FireCandidate(c));
    assert GuardAt(v, |s.tasks|, WantsRLock) && CanRead(v);
    more, v := Then(s, more, v, GuardRLock(|s.tasks|));
  }

  lemma CallbacksAreSet(s: State, c: Cid)
    requires LifeOk(s) && c < |s.clients| && Owed(s, c)
    ensures CallbacksSet(s, c)
  {
    assert ClientOk(s, c) && c in s.members;
    forall t: Tid | t < |s.tasks|
      ensures s.tasks[t] != Registering(c)
    {
      assert TaskOk(s, s.tasks[t]);
    }
  }

  /** If no write fails and no handler closes its connection, a broadcast under way can be
      lost if and only if a client still owed it has already lost its write loop or its
      connection: a message from a callback then finishes it. */
  lemma LostHarmlesslyExactly(acts: seq<Action>, s: State)
    requires Run(INITIAL, acts) == Some(s) && OnCastPath(s.pc)
    ensures CanBeLostHarmlessly(s) <==> !OwedOpen(s)
  {
    ReachableIsSound(acts);
    if OwedOpen(s) {
      forall more | Run(s, more).Some? && AllHarmless(more)
        ensures !Lost(Run(s, more).value, s.log)
      {
        OwedOpenStays(s, more);
        if Still(Run(s, more).value, s.log) {
          OpenIsReceptive(Run(s, more).value);
          ReturnsFrom(Run(s, more).value);
        }
      }
    } else {
      var c: Cid :| c < |s.clients| && Owed(s, c) && !Open(s.clients[c]);
      if s.clients[c].writer.Waiting? {
        var more := SlipIn(s, c);
      } else {
        ReturnsFrom(s);
        assert Run(s, []).Some? && AllHarmless([]);
      }
    }
  }

  /** And if none has, every continuation by the protocol in which nothing fails is within
      the bound, and where it can be continued no further the broadcast has been completed. */
  lemma OpenCastCompletes(acts: seq<Action>, s: State, more: seq<Action>, v: State)
    requires Run(INITIAL, acts) == Some(s) && OnCastPath(s.pc) && OwedOpen(s)
    requires Run(s, more) == Some(v) && AllHarmless(more) && forall k | 0 <= k < |more| :: !Outside(more[k])
    ensures |more| <= Cost(s, |s.clients|)
    ensures (forall a: Action | !Outside(a) && Harmless(a) :: !Enabled(v, a)) ==> !Still(v, s.log)
  {
    ReachableIsSound(acts);
    ProtocolRunCost(s, more, v);
    OwedOpenStays(s, more);
    if Still(v, s.log) {
      OpenIsReceptive(v);
      var a := CastMoves(v);
    }
  }
}
