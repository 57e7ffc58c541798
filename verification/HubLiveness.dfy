/** When the protocol stands still: with nothing pending, or with a sender committed to a
    client whose write loop has returned, and then that sender is stuck for good. */
module HubLiveness {
  import opened Wrappers
  import opened HubModel
  import opened HubSafety

  predicate Quiescent(task: Task) {
    task.ReadingSocket? || task.Ended?
  }

  predicate WriterIdle(cl: Client) {
    !cl.writer.Holding? && !(cl.writer.Waiting? && cl.sendClosed)
  }

  /** Nothing is pending: no registration, removal, count, guarded send or message in hand. */
  predicate Idle(s: State) {
    && s.pc.Selecting? && s.registerChan == [] && s.unregisterChan == []
    && (forall t: Tid | t < |s.tasks| :: Quiescent(s.tasks[t]))
    && (forall c: Cid | c < |s.clients| :: WriterIdle(s.clients[c]))
  }

  predicate WriterGone(s: State, c: Cid) {
    c < |s.clients| && s.clients[c].writer.Returned?
  }

  /** A sender past its membership check faces a client whose write loop has returned. */
  predicate Facing(s: State) {
    || (s.pc.CastSend? && WriterGone(s, s.pc.c))
    || (exists t: Tid | t < |s.tasks| :: GuardAt(s, t, Sends) && WriterGone(s, s.tasks[t].c))
  }

  lemma GuardMoves(s: State, t: Tid) returns (a: Action)
    requires Sound(s) && !Facing(s) && t < |s.tasks| && TaskReads(s.tasks[t])
    requires forall c: Cid | c < |s.clients| :: WriterIdle(s.clients[c])
    ensures !Outside(a) && Enabled(s, a)
  {
    assert TaskOk(s, s.tasks[t]);
    match s.tasks[t].pc
    case Checks => a := GuardCheck(t);
    case Releases => a := GuardRelease(t);
    case Sends =>
      a := GuardSend(t);
      assert GuardAt(s, t, Sends) && !WriterGone(s, s.tasks[t].c);
      assert WriterIdle(s.clients[s.tasks[t].c]);
  }

  lemma HubMoves(s: State) returns (a: Action)
    requires Sound(s) && !Facing(s) && !s.pc.Selecting? && s.lock.readers == {}
    requires forall c: Cid | c < |s.clients| :: WriterIdle(s.clients[c])
    ensures HubAction(a) && Enabled(s, a)
  {
    a := HubStep;
    if s.pc.Casting? && s.pc.todo != {} {
      var c :| c in s.pc.todo;
      a := HubPick(c);
    } else if s.pc.CastSend? {
      assert !WriterGone(s, s.pc.c);
      assert ClientOk(s, s.pc.c) && WriterIdle(s.clients[s.pc.c]);
    }
  }

  lemma TaskMoves(s: State, t: Tid) returns (a: Action)
    requires Sound(s) && s.pc.Selecting? && s.registerChan == [] && s.unregisterChan == []
    requires t < |s.tasks| && !Quiescent(s.tasks[t]) && !TaskReads(s.tasks[t])
    ensures !Outside(a) && Enabled(s, a)
  {
    assert TaskOk(s, s.tasks[t]);
    match s.tasks[t]
    case Registering(_) => a := Enroll(t);
    case Guarded(_, _, _, _) => a := GuardRLock(t);
    case Unregistering(_, _) => a := EnqueueUnregister(t);
    case ClosingConn(_) => a := CloseAfterRead(t);
    case Informing(_) => a := TakeBroadcast(t);
  }

  lemma NoReaders(s: State)
    requires LockOk(s)
    requires forall t: Tid | t < |s.tasks| :: !TaskReads(s.tasks[t])
    ensures s.lock.readers == {}
  {
    assert forall t: Tid :: t !in s.lock.readers;
  }

  /** In a state that is neither idle nor facing a returned write loop, some protocol step
      is possible, also while the hub waits for the write lock behind a reader. */
  lemma SomethingMoves(s: State) returns (a: Action)
    requires Sound(s) && !Idle(s) && !Facing(s)
    ensures !Outside(a) && Enabled(s, a)
  {
    if c: Cid :| c < |s.clients| && !WriterIdle(s.clients[c]) {
      a := if s.clients[c].writer.Holding? then WriterAttempt(c, false) else WriterSeesClose(c);
    } else if t: Tid :| t < |s.tasks| && TaskReads(s.tasks[t]) {
      a := GuardMoves(s, t);
    } else {
      NoReaders(s);
      if !s.pc.Selecting? {
        a := HubMoves(s);
      } else if s.registerChan != [] {
        a := TakeRegister;
      } else if s.unregisterChan != [] {
        a := TakeUnregister;
      } else {
        var t: Tid :| t < |s.tasks| && !Quiescent(s.tasks[t]);
        a := TaskMoves(s, t);
      }
    }
  }

  /** An idle state waits for the outside world only. */
  lemma IdleIsStill(s: State, a: Action)
    requires Idle(s) && !Outside(a)
    ensures !Enabled(s, a)
  {
    if a.WriterAttempt? || a.WriterSeesClose? {
      assert a.c < |s.clients| ==> WriterIdle(s.clients[a.c]);
    } else if TaskAction(a) {
      assert a.t < |s.tasks| ==> Quiescent(s.tasks[a.t]);
    } else if a.TakeBroadcast? {
      assert a.t < |s.tasks| ==> Quiescent(s.tasks[a.t]);
    }
  }

  /** Deadlock, exactly: in a reachable state where no sender faces a returned write loop,
      the protocol cannot move if and only if nothing is pending. */
  lemma StillExactlyWhenIdle(acts: seq<Action>)
    requires Run(INITIAL, acts).Some? && !Facing(Run(INITIAL, acts).value)
    ensures var s := Run(INITIAL, acts).value;
            Idle(s) <==> forall a: Action | !Outside(a) :: !Enabled(s, a)
  {
    var s := Run(INITIAL, acts).value;
    ReachableIsSound(acts);
    if Idle(s) {
      forall a: Action | !Outside(a)
        ensures !Enabled(s, a)
      {
        IdleIsStill(s, a);
      }
    } else {
      var a := SomethingMoves(s);
    }
  }

  /** Deadlock freedom: while the write loops of all registered clients are still there,
      every reachable state with something pending can move. */
  lemma DeadlockFree(acts: seq<Action>) returns (a: Action)
    requires Run(INITIAL, acts).Some?
    requires var s := Run(INITIAL, acts).value; !Idle(s) && forall c | c in s.members :: !WriterGone(s, c)
    ensures !Outside(a) && Enabled(Run(INITIAL, acts).value, a)
  {
    var s := Run(INITIAL, acts).value;
    ReachableIsSound(acts);
    forall t: Tid | GuardAt(s, t, Sends)
      ensures !WriterGone(s, s.tasks[t].c)
    {
      assert TaskOk(s, s.tasks[t]);
    }
    a := SomethingMoves(s);
  }

  // ---------- stuck for good ----------

  /** The hub is sending a broadcast to `c`, whose write loop has returned. */
  predicate CastFacing(s: State, c: Cid) {
    s.pc.CastSend? && s.pc.c == c && WriterGone(s, c) && !s.clients[c].sendClosed
  }

  lemma CastFacingStep(s: State, a: Action, c: Cid)
    requires CastFacing(s, c) && Enabled(s, a)
    ensures !HubAction(a) && CastFacing(Apply(s, a), c)
    ensures Apply(s, a).pc == s.pc && Apply(s, a).members == s.members
  {
    assert !CanSend(s, c) && !HubStepEnabled(s) && !HubAction(a);
    OthersLeaveHub(s, a);
    assert SameMembership(s.clients[c], Apply(s, a).clients[c]);
    GoneStays(s, a, c);
  }

  /** Once a broadcast has reached a registered client whose write loop has returned, the
      hub never takes another step: it stays in that send, whatever the others do. */
  lemma {:induction false} HubStuckForGood(s: State, c: Cid, acts: seq<Action>)
    requires CastFacing(s, c) && Run(s, acts).Some?
    ensures CastFacing(Run(s, acts).value, c)
    ensures Run(s, acts).value.pc == s.pc && Run(s, acts).value.members == s.members
    ensures forall k | 0 <= k < |acts| :: !HubAction(acts[k])
  {
    if acts != [] {
      var init, a := acts[..|acts| - 1], acts[|acts| - 1];
      HubStuckForGood(s, c, init);
      CastFacingStep(Run(s, init).value, a, c);
      assert forall k | 0 <= k < |acts| :: acts[k] == if k < |init| then init[k] else a;
    }
  }

  /** A guard past its check faces a returned write loop. */
  predicate GuardFacing(s: State, t: Tid, c: Cid) {
    GuardAt(s, t, Sends) && s.tasks[t].c == c && WriterGone(s, c) && !s.clients[c].sendClosed
  }

  /** The guard cannot take its own next step, and no one else touches it. */
  lemma GuardFacingTask(s: State, a: Action, t: Tid, c: Cid)
    requires GuardFacing(s, t, c) && Enabled(s, a)
    ensures t < |Apply(s, a).tasks| && Apply(s, a).tasks[t] == s.tasks[t]
  {
    if TaskAction(a) {
      assert a.t != t;
    } else if a.HubStep? {
      HubKeepsTasks(s, t);
    } else if HubAction(a) {
      assert a.TakeBroadcast? ==> a.t != t;
    }
  }

  lemma HubKeepsTasks(s: State, t: Tid)
    requires HubStepEnabled(s) && t < |s.tasks|
    ensures t < |ApplyHub(s).tasks| && ApplyHub(s).tasks[t] == s.tasks[t]
  {
  }

  lemma GoneStaysHub(s: State, c: Cid)
    requires WriterGone(s, c) && Enabled(s, HubStep)
    ensures WriterGone(ApplyHub(s), c)
  {
    if OnInsertPath(s.pc) || OnInfoPath(s.pc) || OnCheckPath(s.pc) {
      assert |ApplyHub(s).clients| == |s.clients| && ApplyHub(s).clients[c].writer == s.clients[c].writer;
    } else if OnDeletePath(s.pc) {
      assert |ApplyDelete(s).clients| == |s.clients| && ApplyDelete(s).clients[c].writer == s.clients[c].writer;
    }
  }

  lemma GoneStaysTask(s: State, a: Action, c: Cid)
    requires WriterGone(s, c) && Enabled(s, a) && TaskAction(a)
    ensures WriterGone(ApplyTask(s, a), c)
  {
  }

  /** A write loop that has returned does not come back. */
  lemma GoneStays(s: State, a: Action, c: Cid)
    requires WriterGone(s, c) && Enabled(s, a)
    ensures WriterGone(Apply(s, a), c)
  {
    if TaskAction(a) {
      GoneStaysTask(s, a, c);
    } else if a.HubStep? {
      GoneStaysHub(s, c);
    }
  }

  lemma MembersNeedTheLock(s: State, a: Action)
    requires LockOk(s) && Enabled(s, a) && s.lock.readers != {}
    ensures Apply(s, a).members == s.members
  {
    assert !s.pc.Insert? && !s.pc.Remove?;
  }

  /** A guard stuck in that way never gives the read lock back: no client is ever added to
      or deleted from the map again. */
  lemma {:induction false} MapFrozenForGood(s: State, t: Tid, c: Cid, acts: seq<Action>)
    requires Sound(s) && GuardFacing(s, t, c) && Run(s, acts).Some?
    ensures Sound(Run(s, acts).value) && GuardFacing(Run(s, acts).value, t, c)
    ensures Run(s, acts).value.members == s.members
  {
    if acts != [] {
      var init, a := acts[..|acts| - 1], acts[|acts| - 1];
      MapFrozenForGood(s, t, c, init);
      var u := Run(s, init).value;
      SoundStep(u, a);
      GuardFacingTask(u, a, t, c);
      GoneStays(u, a, c);
      assert t in u.lock.readers;
      MembersNeedTheLock(u, a);
      assert TaskOk(Apply(u, a), Apply(u, a).tasks[t]) && ClientOk(Apply(u, a), c);
    }
  }

  /** From a state where a sender faces a returned write loop no schedule leads to one with
      nothing pending. */
  lemma FacingNeverIdle(acts: seq<Action>, s: State, more: seq<Action>, t: State)
    requires Run(INITIAL, acts) == Some(s) && Facing(s) && Run(s, more) == Some(t)
    ensures Facing(t) && !Idle(t)
  {
    ReachableIsSound(acts);
    if s.pc.CastSend? && WriterGone(s, s.pc.c) {
      CastNeverIdle(s, s.pc.c, more, t);
    } else {
      var g: Tid :| g < |s.tasks| && GuardAt(s, g, Sends) && WriterGone(s, s.tasks[g].c);
      GuardNeverIdle(s, g, s.tasks[g].c, more, t);
    }
  }

  lemma CastNeverIdle(s: State, c: Cid, more: seq<Action>, t: State)
    requires Sound(s) && s.pc.CastSend? && s.pc.c == c && WriterGone(s, c) && Run(s, more) == Some(t)
    ensures Facing(t) && !Idle(t)
  {
    assert ClientOk(s, c);
    HubStuckForGood(s, c, more);
  }

  lemma GuardNeverIdle(s: State, g: Tid, c: Cid, more: seq<Action>, t: State)
    requires Sound(s) && GuardAt(s, g, Sends) && s.tasks[g].c == c && WriterGone(s, c) && Run(s, more) == Some(t)
    ensures Facing(t) && !Idle(t)
  {
    assert TaskOk(s, s.tasks[g]) && ClientOk(s, c);
    MapFrozenForGood(s, g, c, more);
    assert GuardAt(t, g, Sends) && !Quiescent(t.tasks[g]);
  }
}
