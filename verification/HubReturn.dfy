/** When the hub can come back to its select. For every reachable state the answer depends
    on the clients that a sender is already bound to: whether each can still receive. */
module HubReturn {
  import opened Wrappers
  import opened HubModel
  import opened HubSafety
  import opened HubBroadcast
  import opened HubLiveness
  import opened HubTermination

  /** Some schedule leads the hub back to its select. */
  ghost predicate Returns(s: State) {
    exists more :: Run(s, more).Some? && Run(s, more).value.pc.Selecting?
  }

  /** The write loop receives now, or can after writing the message it holds. */
  predicate Receptive(cl: Client) {
    cl.writer.Waiting? || (cl.writer.Holding? && !cl.connClosed)
  }

  // ---------- a client that cannot receive never will ----------

  lemma DeafStaysHub(s: State, c: Cid)
    requires HubStepEnabled(s) && c < |s.clients| && !Receptive(s.clients[c])
    ensures c < |ApplyHub(s).clients| && !Receptive(ApplyHub(s).clients[c])
  {
    if OnInsertPath(s.pc) || OnInfoPath(s.pc) || OnCheckPath(s.pc) {
      assert |ApplyHub(s).clients| == |s.clients| && ApplyHub(s).clients[c].writer == s.clients[c].writer;
      assert ApplyHub(s).clients[c].connClosed == s.clients[c].connClosed;
    } else if OnDeletePath(s.pc) {
      DeafStaysDelete(s, c);
    }
  }

  lemma DeafStaysDelete(s: State, c: Cid)
    requires HubStepEnabled(s) && OnDeletePath(s.pc) && c < |s.clients| && !Receptive(s.clients[c])
    ensures c < |ApplyDelete(s).clients| && !Receptive(ApplyDelete(s).clients[c])
  {
  }

  lemma DeafStaysTask(s: State, a: Action, c: Cid)
    requires Enabled(s, a) && TaskAction(a) && c < |s.clients| && !Receptive(s.clients[c])
    ensures c < |ApplyTask(s, a).clients| && !Receptive(ApplyTask(s, a).clients[c])
  {
  }

  lemma DeafStays(s: State, a: Action, c: Cid)
    requires Enabled(s, a) && c < |s.clients| && !Receptive(s.clients[c])
    ensures c < |Apply(s, a).clients| && !Receptive(Apply(s, a).clients[c])
  {
    if TaskAction(a) {
      DeafStaysTask(s, a, c);
    } else if a.HubStep? {
      DeafStaysHub(s, c);
    }
  }

  /** A client in the map that cannot receive lets no send through. */
  lemma DeafBlocks(s: State, c: Cid)
    requires LifeOk(s) && c in s.members && !Receptive(s.clients[c])
    ensures !CanSend(s, c)
  {
    assert ClientOk(s, c);
  }

  // ---------- a broadcast under way ----------

  predicate CastBlocked(s: State, c: Cid) {
    OnCastPath(s.pc) && c < |s.clients| && Owed(s, c) && !Receptive(s.clients[c])
  }

  lemma OwedStays(s: State, a: Action, c: Cid)
    requires Sound(s) && CastBlocked(s, c) && Enabled(s, a) && HubAction(a)
    ensures OnCastPath(Apply(s, a).pc) && Owed(Apply(s, a), c)
  {
    assert c in s.members;
    DeafBlocks(s, c);
  }

  lemma {:induction false} CastBlockedForGood(s: State, c: Cid, more: seq<Action>)
    requires Sound(s) && CastBlocked(s, c) && Run(s, more).Some?
    ensures Sound(Run(s, more).value) && CastBlocked(Run(s, more).value, c)
  {
    if more != [] {
      var init, a := more[..|more| - 1], more[|more| - 1];
      CastBlockedForGood(s, c, init);
      var u := Run(s, init).value;
      SoundStep(u, a);
      DeafStays(u, a, c);
      if HubAction(a) {
        OwedStays(u, a, c);
      } else {
        OthersLeaveHub(u, a);
      }
    }
  }

  predicate OwedReceptive(s: State) {
    forall c: Cid | c < |s.clients| && Owed(s, c) :: Receptive(s.clients[c])
  }

  /** The broadcast's next step: open, pick, let the write loop finish, send, end. */
  lemma CastMoves(s: State) returns (a: Action)
    requires Sound(s) && OnCastPath(s.pc) && OwedReceptive(s)
    ensures !Outside(a) && Enabled(s, a) && (HubAction(a) || (a.WriterAttempt? && a.ok))
    ensures var t := Apply(s, a); t.pc.Selecting? || (OnCastPath(t.pc) && OwedReceptive(t))
  {
    a := HubStep;
    if s.pc.CastSend? {
      a := SendMoves(s);
    } else if s.pc.Casting? && s.pc.todo != {} {
      var c :| c in s.pc.todo;
      a := HubPick(c);
      assert forall d: Cid :: Owed(Apply(s, a), d) <==> Owed(s, d);
    } else if s.pc.CastRLock? {
      assert forall d: Cid :: Owed(Apply(s, a), d) <==> Owed(s, d);
    }
  }

  lemma SendMoves(s: State) returns (a: Action)
    requires Sound(s) && s.pc.CastSend? && OwedReceptive(s)
    ensures !Outside(a) && Enabled(s, a) && (HubAction(a) || (a.WriterAttempt? && a.ok))
    ensures OnCastPath(Apply(s, a).pc) && OwedReceptive(Apply(s, a))
  {
    var c := s.pc.c;
    assert ClientOk(s, c) && Owed(s, c);
    a := if s.clients[c].writer.Holding? then WriterAttempt(c, true) else HubStep;
    SendKeepsReceptive(s, a);
  }

  lemma SendKeepsReceptive(s: State, a: Action)
    requires Sound(s) && s.pc.CastSend? && OwedReceptive(s) && Enabled(s, a)
    requires a == HubStep || a == WriterAttempt(s.pc.c, true)
    ensures OnCastPath(Apply(s, a).pc) && OwedReceptive(Apply(s, a))
  {
    var t := Apply(s, a);
    assert ClientOk(s, s.pc.c);
    forall d: Cid | d < |t.clients| && Owed(t, d)
      ensures Receptive(t.clients[d])
    {
      assert Owed(s, d);
    }
  }

  lemma CastFinishes(s: State) returns (more: seq<Action>)
    requires Sound(s) && OnCastPath(s.pc) && OwedReceptive(s)
    ensures Run(s, more).Some? && Run(s, more).value.pc.Selecting?
    decreases Cost(s, |s.clients|)
  {
    var a := CastMoves(s);
    ProtocolStepCost(s, a, |s.clients|);
    SoundStep(s, a);
    NoOneArrives(s, a);
    var rest := [];
    if !Apply(s, a).pc.Selecting? {
      rest := CastFinishes(Apply(s, a));
    }
    RunCons(s, a, rest);
    more := [a] + rest;
  }

  // ---------- waiting for the write lock ----------

  /** The hub is on its way to a change of the map, for which it needs the write lock. */
  predicate AwaitsWrite(s: State) {
    match s.pc
    case InsertLock(_) => true
    case InsertAcquire(_) => true
    case RemoveRLock(c) => c in s.members
    case RemoveCheck(c) => c in s.members
    case RemoveHit(_) => true
    case RemoveLock(_) => true
    case RemoveAcquire(_) => true
    case _ => false
  }

  /** A guard that holds the read lock and is bound to send before it gives it back. */
  predicate Heading(s: State, t: Tid) {
    && t < |s.tasks| && s.tasks[t].Guarded?
    && (s.tasks[t].pc.Sends? || (s.tasks[t].pc.Checks? && s.tasks[t].c in s.members))
  }

  /** Every such guard has a client that can receive; two have the same client only if its
      connection is open, for then its write loop can come back for the second. */
  predicate Clear(s: State) {
    forall t: Tid, u: Tid | t < |s.tasks| && u < |s.tasks| && Heading(s, t) && Heading(s, u) :: Compatible(s, t, u)
  }

  predicate Compatible(s: State, t: Tid, u: Tid)
    requires Heading(s, t) && Heading(s, u)
  {
    var c := s.tasks[t].c;
    && c < |s.clients| && Receptive(s.clients[c])
    && (t != u && s.tasks[u].c == c ==> !s.clients[c].connClosed)
  }

  lemma HeadingReads(s: State, t: Tid)
    requires Sound(s) && Heading(s, t)
    ensures t in s.lock.readers && s.tasks[t].c in s.members && s.tasks[t].c < |s.clients|
  {
    assert TaskOk(s, s.tasks[t]);
  }

  /** As long as someone reads, the hub does not get past its wait. */
  lemma StillAwaits(s: State, a: Action)
    requires Sound(s) && AwaitsWrite(s) && Enabled(s, a) && (s.lock.readers != {} || !HubAction(a))
    ensures AwaitsWrite(Apply(s, a)) && Apply(s, a).members == s.members
  {
    if !HubAction(a) {
      OthersLeaveHub(s, a);
    } else {
      AwaitsHub(s);
    }
  }

  lemma AwaitsHub(s: State)
    requires AwaitsWrite(s) && HubStepEnabled(s) && s.lock.readers != {}
    ensures AwaitsWrite(ApplyHub(s)) && ApplyHub(s).members == s.members
  {
  }

  lemma HeadingStays(s: State, a: Action, t: Tid)
    requires Sound(s) && AwaitsWrite(s) && Heading(s, t) && Enabled(s, a) && a != GuardSend(t)
    ensures AwaitsWrite(Apply(s, a)) && Heading(Apply(s, a), t) && Apply(s, a).tasks[t].c == s.tasks[t].c
  {
    HeadingReads(s, t);
    StillAwaits(s, a);
    if a.HubStep? {
      HubKeepsTasks(s, t);
    } else if TaskAction(a) {
      HeadingTask(s, a, t);
    }
  }

  lemma HeadingTask(s: State, a: Action, t: Tid)
    requires Heading(s, t) && Enabled(s, a) && TaskAction(a) && a != GuardSend(t)
    ensures Heading(ApplyTask(s, a), t) && ApplyTask(s, a).tasks[t].c == s.tasks[t].c
  {
    var s' := ApplyTask(s, a);
    assert s'.members == s.members;
    if a.t == t {
      assert a == GuardCheck(t);
    } else {
      assert s'.tasks[t] == s.tasks[t];
    }
  }

  lemma ClosedStays(s: State, a: Action, c: Cid)
    requires Enabled(s, a) && c < |s.clients| && s.clients[c].connClosed
    ensures c < |Apply(s, a).clients| && Apply(s, a).clients[c].connClosed
  {
    if TaskAction(a) {
      ClosedStaysTask(s, a, c);
    } else if a.HubStep? {
      ClosedStaysHub(s, c);
    }
  }

  lemma ClosedStaysTask(s: State, a: Action, c: Cid)
    requires Enabled(s, a) && TaskAction(a) && c < |s.clients| && s.clients[c].connClosed
    ensures c < |ApplyTask(s, a).clients| && ApplyTask(s, a).clients[c].connClosed
  {
  }

  lemma ClosedStaysHub(s: State, c: Cid)
    requires HubStepEnabled(s) && c < |s.clients| && s.clients[c].connClosed
    ensures c < |ApplyHub(s).clients| && ApplyHub(s).clients[c].connClosed
  {
    if OnInsertPath(s.pc) || OnInfoPath(s.pc) || OnCheckPath(s.pc) {
      assert |ApplyHub(s).clients| == |s.clients| && ApplyHub(s).clients[c].connClosed == s.clients[c].connClosed;
    } else if OnCastPath(s.pc) {
      assert |ApplyCast(s).clients| == |s.clients| && ApplyCast(s).clients[c].connClosed == s.clients[c].connClosed;
    } else {
      assert |ApplyDelete(s).clients| == |s.clients|;
    }
  }

  /** A send to a client whose connection is closed leaves it unable to receive again. */
  lemma SendDeafens(s: State, t: Tid)
    requires Sound(s) && Heading(s, t) && Enabled(s, GuardSend(t)) && s.clients[s.tasks[t].c].connClosed
    ensures !Receptive(Apply(s, GuardSend(t)).clients[s.tasks[t].c])
  {
    HeadingReads(s, t);
    assert ClientOk(s, s.tasks[t].c);
  }

  lemma ConflictStays(s: State, a: Action, t: Tid, u: Tid)
    requires Sound(s) && AwaitsWrite(s) && Heading(s, t) && Heading(s, u) && !Compatible(s, t, u) && Enabled(s, a)
    ensures AwaitsWrite(Apply(s, a)) && !Clear(Apply(s, a))
  {
    var s', c := Apply(s, a), s.tasks[t].c;
    HeadingReads(s, t);
    if !Receptive(s.clients[c]) {
      DeafBlocks(s, c);
      HeadingStays(s, a, t);
      DeafStays(s, a, c);
      assert !Compatible(s', t, t);
    } else {
      ClosedStays(s, a, c);
      if a == GuardSend(t) || a == GuardSend(u) {
        var other := if a == GuardSend(t) then u else t;
        HeadingStays(s, a, other);
        SendDeafens(s, a.t);
        assert !Compatible(s', other, other);
      } else {
        HeadingStays(s, a, t);
        HeadingStays(s, a, u);
        assert !Compatible(s', t, u);
      }
    }
  }

  lemma {:induction false} ConflictForGood(s: State, more: seq<Action>)
    requires Sound(s) && AwaitsWrite(s) && !Clear(s) && Run(s, more).Some?
    ensures var v := Run(s, more).value; Sound(v) && AwaitsWrite(v) && !Clear(v)
  {
    if more != [] {
      var init, a := more[..|more| - 1], more[|more| - 1];
      ConflictForGood(s, init);
      var v := Run(s, init).value;
      SoundStep(v, a);
      var t: Tid, u: Tid :| t < |v.tasks| && u < |v.tasks| && Heading(v, t) && Heading(v, u) && !Compatible(v, t, u);
      ConflictStays(v, a, t, u);
    }
  }

  /** The next step of a guard that reads: it checks, waits for the write loop, sends or leaves. */
  function GuardNext(s: State, t: Tid): Action
    requires t < |s.tasks| && TaskReads(s.tasks[t])
  {
    match s.tasks[t].pc
    case Checks => GuardCheck(t)
    case Sends =>
      var c := s.tasks[t].c;
      if c < |s.clients| && s.clients[c].writer.Holding? then WriterAttempt(c, true) else GuardSend(t)
    case _ => GuardRelease(t)
  }

  lemma GuardNextWorks(s: State, t: Tid)
    requires Sound(s) && Clear(s) && t < |s.tasks| && TaskReads(s.tasks[t])
    ensures var a := GuardNext(s, t); !Outside(a) && !HubAction(a) && Enabled(s, a)
  {
    assert TaskOk(s, s.tasks[t]);
    if s.tasks[t].pc.Sends? {
      assert Compatible(s, t, t);
    }
  }

  lemma GuardNextKeepsClear(s: State, t: Tid)
    requires Sound(s) && Clear(s) && t < |s.tasks| && TaskReads(s.tasks[t]) && Enabled(s, GuardNext(s, t))
    ensures Clear(Apply(s, GuardNext(s, t)))
  {
    var a := GuardNext(s, t);
    var s' := Apply(s, a);
    forall p: Tid, q: Tid | p < |s'.tasks| && q < |s'.tasks| && Heading(s', p) && Heading(s', q)
      ensures Compatible(s', p, q)
    {
      NoNewHeading(s, t, p);
      NoNewHeading(s, t, q);
      assert Compatible(s, p, q);
      if a == GuardSend(t) {
        assert Compatible(s, p, t);
        ClearAfterSend(s, t, p, q);
      }
    }
  }

  lemma NoNewHeading(s: State, t: Tid, p: Tid)
    requires t < |s.tasks| && TaskReads(s.tasks[t]) && Enabled(s, GuardNext(s, t))
    requires Heading(Apply(s, GuardNext(s, t)), p)
    ensures Heading(s, p) && Apply(s, GuardNext(s, t)).tasks[p].c == s.tasks[p].c
    ensures GuardNext(s, t) == GuardSend(t) ==> p != t
  {
  }

  lemma ClearAfterSend(s: State, t: Tid, p: Tid, q: Tid)
    requires Sound(s) && Heading(s, t) && Heading(s, p) && Heading(s, q) && Enabled(s, GuardSend(t)) && p != t && q != t
    requires Compatible(s, p, q) && Compatible(s, p, t)
    ensures var s' := Apply(s, GuardSend(t)); Heading(s', p) && Heading(s', q) && Compatible(s', p, q)
  {
    HeadingReads(s, t);
    assert ClientOk(s, s.tasks[t].c);
  }

  // ---------- nothing in the way ----------

  /** The hub needs no one, or no one is in its way. */
  predicate Walks(s: State) {
    !OnCastPath(s.pc) && (s.lock.readers == {} || !AwaitsWrite(s))
  }

  lemma HubWalks(s: State) returns (more: seq<Action>)
    requires Sound(s) && Walks(s)
    ensures Run(s, more).Some? && Run(s, more).value.pc.Selecting?
    decreases Cost(s, |s.clients|)
  {
    if s.pc.Selecting? {
      more := [];
    } else {
      HubWalkStep(s);
      ProtocolStepCost(s, HubStep, |s.clients|);
      SoundStep(s, HubStep);
      NoOneArrives(s, HubStep);
      var rest := HubWalks(Apply(s, HubStep));
      RunCons(s, HubStep, rest);
      more := [HubStep] + rest;
    }
  }

  lemma HubWalkStep(s: State)
    requires Sound(s) && !s.pc.Selecting? && Walks(s)
    ensures Enabled(s, HubStep) && Walks(ApplyHub(s))
  {
    if OnInsertPath(s.pc) || OnInfoPath(s.pc) {
      WalkInsertInfo(s);
    } else if OnCheckPath(s.pc) {
      WalkCheck(s);
    } else {
      WalkDelete(s);
    }
  }

  lemma WalkInsertInfo(s: State)
    requires FlagsFollow(s) && PcOk(s) && Walks(s) && (OnInsertPath(s.pc) || OnInfoPath(s.pc))
    ensures HubStepEnabled(s) && Walks(ApplyHub(s))
  {
  }

  lemma WalkCheck(s: State)
    requires FlagsFollow(s) && PcOk(s) && Walks(s) && OnCheckPath(s.pc)
    ensures HubStepEnabled(s) && Walks(ApplyCheck(s))
  {
  }

  lemma WalkDelete(s: State)
    requires FlagsFollow(s) && PcOk(s) && Walks(s) && OnDeletePath(s.pc)
    ensures HubStepEnabled(s) && Walks(ApplyDelete(s))
  {
  }

  lemma ClearReturns(s: State) returns (more: seq<Action>)
    requires Sound(s) && AwaitsWrite(s) && Clear(s)
    ensures Run(s, more).Some? && Run(s, more).value.pc.Selecting?
    decreases Cost(s, |s.clients|)
  {
    if s.lock.readers == {} {
      more := HubWalks(s);
    } else {
      var t :| t in s.lock.readers;
      var a := GuardNext(s, t);
      GuardNextWorks(s, t);
      GuardNextKeepsClear(s, t);
      StillAwaits(s, a);
      ProtocolStepCost(s, a, |s.clients|);
      SoundStep(s, a);
      NoOneArrives(s, a);
      var rest := ClearReturns(Apply(s, a));
      RunCons(s, a, rest);
      more := [a] + rest;
    }
  }

  // ---------- theorems ----------

  /** No sender the hub depends on is bound to a client that cannot receive. */
  predicate WayClear(s: State) {
    if OnCastPath(s.pc) then OwedReceptive(s) else AwaitsWrite(s) ==> Clear(s)
  }

  /** When the hub hangs, exactly: from a reachable state it can come back to its select if
      and only if every client still owed the broadcast under way can receive, or, on its
      way to the write lock, every guard that holds the read lock can send. */
  lemma ReturnsExactly(acts: seq<Action>, s: State)
    requires Run(INITIAL, acts) == Some(s)
    ensures Returns(s) <==> WayClear(s)
  {
    ReachableIsSound(acts);
    ReturnsFrom(s);
  }

  lemma ReturnsFrom(s: State)
    requires Sound(s)
    ensures Returns(s) <==> WayClear(s)
  {
    if WayClear(s) {
      var more;
      if OnCastPath(s.pc) {
        more := CastFinishes(s);
      } else if AwaitsWrite(s) {
        more := ClearReturns(s);
      } else {
        more := HubWalks(s);
      }
      assert Run(s, more).Some?;
    } else {
      forall more | Run(s, more).Some?
        ensures !Run(s, more).value.pc.Selecting?
      {
        if OnCastPath(s.pc) {
          var c: Cid :| c < |s.clients| && Owed(s, c) && !Receptive(s.clients[c]);
          CastBlockedForGood(s, c, more);
        } else {
          ConflictForGood(s, more);
        }
      }
    }
  }

  /** Some schedule leads back from what the hub does about the event. */
  predicate CanComeBackAfter(s: State, a: Action) {
    match a
    case TakeBroadcast(_) => forall c | c in s.members :: c < |s.clients| && Receptive(s.clients[c])
    case TakeRegister => Clear(s)
    case TakeUnregister => s.unregisterChan != [] && s.unregisterChan[0] in s.members ==> Clear(s)
    case _ => true
  }

  /** The same at the select, before the hub commits itself: after a broadcast it can come
      back if and only if all registered clients can receive; after a registration, or the
      removal of a registered client, if and only if all guards can send. */
  lemma TakesExactly(acts: seq<Action>, s: State, a: Action)
    requires Run(INITIAL, acts) == Some(s) && Enabled(s, a) && s.pc.Selecting? && HubAction(a)
    ensures Returns(Apply(s, a)) <==> CanComeBackAfter(s, a)
  {
    ReachableIsSound(acts);
    SoundStep(s, a);
    ReturnsFrom(Apply(s, a));
    CanReturnAfter(s, a);
  }

  lemma CanReturnAfter(s: State, a: Action)
    requires RangesOk(s) && Enabled(s, a) && s.pc.Selecting? && HubAction(a)
    ensures WayClear(Apply(s, a)) <==> CanComeBackAfter(s, a)
  {
    var s' := Apply(s, a);
    if a.TakeBroadcast? {
      assert forall c: Cid :: Owed(s', c) <==> c in s.members;
    } else {
      assert s'.tasks == s.tasks && s'.clients == s.clients && s'.members == s.members;
      SameClear(s, s');
    }
  }

  lemma SameClear(s: State, s': State)
    requires s'.tasks == s.tasks && s'.clients == s.clients && s'.members == s.members
    ensures Clear(s') <==> Clear(s)
  {
    assert forall t: Tid :: Heading(s', t) <==> Heading(s, t);
    assert forall t: Tid, u: Tid | Heading(s, t) && Heading(s, u) :: Compatible(s', t, u) <==> Compatible(s, t, u);
  }
}
