/** What every reachable state of the hub keeps: who holds the lock, where each client is
    in its life, and that no goroutine ever sends on, or closes, a closed channel. */
module HubSafety {
  import opened Wrappers
  import opened HubModel

  // ---------- the lock ----------

  predicate HubReading(pc: HubPc) {
    || pc.InfoCount? || pc.InfoRUnlock?
    || pc.RemoveCheck? || pc.RemoveMiss? || pc.RemoveHit?
    || pc.Casting? || pc.CastSend?
  }

  predicate HubPending(pc: HubPc) {
    pc.InsertAcquire? || pc.RemoveAcquire?
  }

  predicate HubWriting(pc: HubPc) {
    pc.Insert? || pc.InsertUnlock? || pc.Remove? || pc.RemoveUnlock?
  }

  predicate TaskReads(task: Task) {
    task.Guarded? && !task.pc.WantsRLock?
  }

  /** The lock is held by exactly the goroutines whose code says so; a writer is alone. */
  ghost predicate LockOk(s: State) {
    && s.lock.hubReads == HubReading(s.pc)
    && s.lock.pending == HubPending(s.pc)
    && s.lock.writer == HubWriting(s.pc)
    && (forall t: Tid :: t in s.lock.readers <==> t < |s.tasks| && TaskReads(s.tasks[t]))
    && (s.lock.writer ==> s.lock.readers == {})
  }

  lemma LockStepHub(s: State, a: Action)
    requires LockOk(s) && Enabled(s, a) && HubAction(a)
    ensures LockOk(Apply(s, a))
  {
    var s' := Apply(s, a);
    assert s'.lock.readers == s.lock.readers;
    forall t: Tid
      ensures t < |s'.tasks| && TaskReads(s'.tasks[t]) <==> t < |s.tasks| && TaskReads(s.tasks[t])
    {
      HubKeepsReaders(s, a, t);
    }
    HubKeepsLock(s, a);
  }

  lemma HubKeepsReaders(s: State, a: Action, t: Tid)
    requires Enabled(s, a) && HubAction(a)
    ensures var s' := Apply(s, a);
            t < |s'.tasks| && TaskReads(s'.tasks[t]) <==> t < |s.tasks| && TaskReads(s.tasks[t])
  {
    if a.HubStep? {
      HubStepKeepsReaders(s, t);
    } else if a.TakeBroadcast? {
      assert |Apply(s, a).tasks| == |s.tasks|;
    } else {
      assert Apply(s, a).tasks == s.tasks;
    }
  }

  lemma HubStepKeepsReaders(s: State, t: Tid)
    requires HubStepEnabled(s)
    ensures var s' := ApplyHub(s);
            t < |s'.tasks| && TaskReads(s'.tasks[t]) <==> t < |s.tasks| && TaskReads(s.tasks[t])
  {
    if !s.pc.InfoSpawn? {
      HubStepKeepsTasks(s);
    }
  }

  lemma HubStepKeepsTasks(s: State)
    requires HubStepEnabled(s) && !s.pc.InfoSpawn?
    ensures ApplyHub(s).tasks == s.tasks
  {
  }

  /** The hub's flags follow its code; acquiring waits for all readers. */
  lemma HubKeepsLock(s: State, a: Action)
    requires LockOk(s) && Enabled(s, a) && HubAction(a)
    ensures var s' := Apply(s, a);
            && s'.lock.hubReads == HubReading(s'.pc)
            && s'.lock.pending == HubPending(s'.pc)
            && s'.lock.writer == HubWriting(s'.pc)
            && (s'.lock.writer ==> s'.lock.readers == {})
  {
    if !a.HubStep? {
    } else if OnInsertPath(s.pc) || OnInfoPath(s.pc) {
      LockInsertInfo(s);
    } else if OnCastPath(s.pc) {
      LockCast(s);
    } else if OnCheckPath(s.pc) {
      LockCheck(s);
    } else {
      LockDelete(s);
    }
  }

  predicate FlagsFollow(s: State) {
    && s.lock.hubReads == HubReading(s.pc)
    && s.lock.pending == HubPending(s.pc)
    && s.lock.writer == HubWriting(s.pc)
    && (s.lock.writer ==> s.lock.readers == {})
  }

  lemma LockInsertInfo(s: State)
    requires FlagsFollow(s) && HubStepEnabled(s) && (OnInsertPath(s.pc) || OnInfoPath(s.pc))
    ensures FlagsFollow(ApplyHub(s))
  {
  }

  lemma LockCast(s: State)
    requires FlagsFollow(s) && HubStepEnabled(s) && OnCastPath(s.pc)
    ensures FlagsFollow(ApplyHub(s))
  {
  }

  lemma LockCheck(s: State)
    requires FlagsFollow(s) && HubStepEnabled(s) && OnCheckPath(s.pc)
    ensures FlagsFollow(ApplyCheck(s))
  {
  }

  lemma LockDelete(s: State)
    requires FlagsFollow(s) && HubStepEnabled(s) && OnDeletePath(s.pc)
    ensures FlagsFollow(ApplyDelete(s))
  {
  }

  lemma LockStepOther(s: State, a: Action)
    requires LockOk(s) && Enabled(s, a) && !HubAction(a)
    ensures LockOk(Apply(s, a))
  {
    var s' := Apply(s, a);
    assert s'.pc == s.pc;
    forall t: Tid
      ensures t in s'.lock.readers <==> t < |s'.tasks| && TaskReads(s'.tasks[t])
    {
      OthersKeepReaders(s, a, t);
    }
    assert s.lock.writer ==> s'.lock.readers == s.lock.readers || a.GuardRelease?;
  }

  lemma OthersKeepReaders(s: State, a: Action, t: Tid)
    requires LockOk(s) && Enabled(s, a) && !HubAction(a)
    ensures var s' := Apply(s, a); t in s'.lock.readers <==> t < |s'.tasks| && TaskReads(s'.tasks[t])
  {
  }

  /** While the hub waits for the write lock no reader gets in, and while it holds it none
      is there. */
  lemma PendingKeepsReadersOut(s: State, a: Action)
    requires LockOk(s) && Enabled(s, a) && (s.lock.pending || s.lock.writer)
    ensures Apply(s, a).lock.readers <= s.lock.readers
    ensures s.lock.writer ==> s.lock.readers == {}
  {
    if HubAction(a) {
      HubKeepsReaderSet(s, a);
    }
  }

  lemma HubKeepsReaderSet(s: State, a: Action)
    requires Enabled(s, a) && HubAction(a)
    ensures Apply(s, a).lock.readers == s.lock.readers
  {
    if a.HubStep? {
      HubStepKeepsReaderSet(s);
    }
  }

  lemma HubStepKeepsReaderSet(s: State)
    requires HubStepEnabled(s)
    ensures ApplyHub(s).lock.readers == s.lock.readers
  {
    if OnDeletePath(s.pc) {
      DeleteKeepsReaderSet(s);
    } else if OnCastPath(s.pc) {
      CastKeepsReaderSet(s);
    }
  }

  lemma DeleteKeepsReaderSet(s: State)
    requires HubStepEnabled(s) && OnDeletePath(s.pc)
    ensures ApplyDelete(s).lock.readers == s.lock.readers
  {
  }

  lemma CastKeepsReaderSet(s: State)
    requires HubStepEnabled(s) && OnCastPath(s.pc)
    ensures ApplyCast(s).lock.readers == s.lock.readers
  {
  }

  // ---------- the life of a client ----------

  predicate Inserting(pc: HubPc, c: Cid) {
    pc == InsertLock(c) || pc == InsertAcquire(c) || pc == Insert(c)
  }

  predicate Removing(pc: HubPc, c: Cid) {
    pc == RemoveHit(c) || pc == RemoveLock(c) || pc == RemoveAcquire(c) || pc == Remove(c)
  }

  predicate Dropping(pc: HubPc, c: Cid) {
    pc == RemoveUnlock(c) || pc == CloseConn(c) || pc == CloseSend(c)
  }

  predicate ClientOk(s: State, c: Cid)
    requires c < |s.clients|
  {
    var cl := s.clients[c];
    && (c in s.members <==> cl.joined.Some? && cl.left.None?)
    && (cl.left.Some? ==> cl.joined.Some?)
    && (cl.sendClosed <==> cl.left.Some? && !Dropping(s.pc, c))
    && (Dropping(s.pc, c) ==> cl.left.Some?)
    && (Removing(s.pc, c) ==> c in s.members)
    && (c in s.registerChan || Inserting(s.pc, c) ==> cl.joined.None?)
    && (c in s.registerChan ==> !Inserting(s.pc, c))
    && (cl.sendClosed || s.pc == CloseSend(c) ==> cl.connClosed)
  }

  predicate TaskOk(s: State, task: Task) {
    match task
    case Registering(c) =>
      c < |s.clients| && s.clients[c].joined.None? && c !in s.registerChan && !Inserting(s.pc, c)
    case Guarded(c, _, pc, _) => c < |s.clients| && (pc.Sends? ==> c in s.members)
    case ReadingSocket(c) => c < |s.clients|
    case Unregistering(c, _) => c < |s.clients|
    case ClosingConn(c) => c < |s.clients|
    case Informing(_) => true
    case Ended => true
  }

  predicate PcOk(s: State) {
    match s.pc
    case InsertLock(c) => c < |s.clients|
    case InsertAcquire(c) => c < |s.clients|
    case Insert(c) => c < |s.clients|
    case RemoveRLock(c) => c < |s.clients|
    case RemoveCheck(c) => c < |s.clients|
    case RemoveHit(c) => c < |s.clients|
    case RemoveLock(c) => c < |s.clients|
    case RemoveAcquire(c) => c < |s.clients|
    case Remove(c) => c < |s.clients|
    case RemoveUnlock(c) => c < |s.clients|
    case CloseConn(c) => c < |s.clients|
    case CloseSend(c) => c < |s.clients|
    case Casting(_, todo) => todo <= s.members
    case CastSend(_, c, todo) => c in s.members && c !in todo && todo <= s.members
    case _ => true
  }

  predicate ClientsOk(s: State) {
    forall c: Cid | c < |s.clients| :: ClientOk(s, c)
  }

  predicate TasksOk(s: State) {
    forall t: Tid | t < |s.tasks| :: TaskOk(s, s.tasks[t])
  }

  predicate RegisteringOnce(s: State) {
    forall t: Tid, u: Tid | t < |s.tasks| && u < |s.tasks| && s.tasks[t].Registering? && s.tasks[u] == s.tasks[t] ::
      t == u
  }

  predicate RangesOk(s: State) {
    && (forall c | c in s.members :: c < |s.clients|)
    && |s.registerChan| <= CAPACITY && (forall c | c in s.registerChan :: c < |s.clients|)
    && |s.unregisterChan| <= CAPACITY && (forall c | c in s.unregisterChan :: c < |s.clients|)
  }

  predicate LifeOk(s: State) {
    RangesOk(s) && PcOk(s) && ClientsOk(s) && TasksOk(s) && RegisteringOnce(s)
  }

  /** One client across one step. */
  lemma ClientStepOutside(s: State, a: Action, c: Cid)
    requires LifeOk(s) && Enabled(s, a) && Outside(a) && c < |ApplyOutside(s, a).clients|
    ensures ClientOk(ApplyOutside(s, a), c)
  {
    if c < |s.clients| {
      assert ClientOk(s, c);
    }
  }

  lemma ClientStepWriter(s: State, a: Action, c: Cid)
    requires LifeOk(s) && Enabled(s, a) && (a.WriterAttempt? || a.WriterSeesClose?) && c < |s.clients|
    ensures ClientOk(ApplyWriter(s, a), c)
  {
    assert ClientOk(s, c);
  }

  lemma ClientStepTask(s: State, a: Action, c: Cid)
    requires LifeOk(s) && Enabled(s, a) && TaskAction(a) && c < |s.clients|
    ensures ClientOk(ApplyTask(s, a), c)
  {
    assert ClientOk(s, c);
    assert a.Enroll? ==> TaskOk(s, s.tasks[a.t]);
  }

  lemma ClientStepOther(s: State, a: Action, c: Cid)
    requires LifeOk(s) && Enabled(s, a) && !HubAction(a) && c < |Apply(s, a).clients|
    ensures ClientOk(Apply(s, a), c)
  {
    if Outside(a) {
      ClientStepOutside(s, a, c);
    } else if TaskAction(a) {
      ClientStepTask(s, a, c);
    } else {
      ClientStepWriter(s, a, c);
    }
  }

  lemma ClientStepTake(s: State, a: Action, c: Cid)
    requires LifeOk(s) && Enabled(s, a) && HubAction(a) && !a.HubStep? && c < |s.clients|
    ensures ClientOk(Apply(s, a), c)
  {
    assert ClientOk(s, c);
  }

  lemma ClientStepInsert(s: State, c: Cid)
    requires ClientsOk(s) && HubStepEnabled(s) && OnInsertPath(s.pc) && c < |s.clients|
    ensures ClientOk(ApplyInsert(s), c)
  {
    assert ClientOk(s, c);
  }

  lemma ClientStepCheck(s: State, c: Cid)
    requires ClientsOk(s) && HubStepEnabled(s) && OnCheckPath(s.pc) && c < |s.clients|
    ensures ClientOk(ApplyCheck(s), c)
  {
    assert ClientOk(s, c);
  }

  lemma ClientStepDelete(s: State, c: Cid)
    requires ClientsOk(s) && HubStepEnabled(s) && OnDeletePath(s.pc) && c < |s.clients|
    ensures ClientOk(ApplyDelete(s), c)
  {
    assert ClientOk(s, c);
    if s.pc.Remove? {
      ClientStepRemove(s, c);
    } else if s.pc.CloseSend? {
      ClientStepClose(s, c);
    } else {
      assert ApplyDelete(s).clients[c] == s.clients[c]
          || ApplyDelete(s).clients[c] == s.clients[c].(connClosed := true);
    }
  }

  lemma ClientStepRemove(s: State, c: Cid)
    requires HubStepEnabled(s) && s.pc.Remove? && c < |s.clients| && ClientOk(s, c)
    ensures ClientOk(ApplyDelete(s), c)
  {
  }

  lemma ClientStepClose(s: State, c: Cid)
    requires HubStepEnabled(s) && s.pc.CloseSend? && c < |s.clients| && ClientOk(s, c)
    ensures ClientOk(ApplyDelete(s), c)
  {
  }

  lemma ClientStepInfo(s: State, c: Cid)
    requires ClientsOk(s) && HubStepEnabled(s) && OnInfoPath(s.pc) && c < |s.clients|
    ensures ClientOk(ApplyInfo(s), c)
  {
    assert ClientOk(s, c);
  }

  lemma ClientStepCast(s: State, c: Cid)
    requires ClientsOk(s) && HubStepEnabled(s) && OnCastPath(s.pc) && c < |s.clients|
    ensures ClientOk(ApplyCast(s), c)
  {
    assert ClientOk(s, c);
  }

  lemma ClientStepHub(s: State, c: Cid)
    requires LifeOk(s) && Enabled(s, HubStep) && c < |s.clients|
    ensures ClientOk(ApplyHub(s), c)
  {
    if OnInsertPath(s.pc) {
      ClientStepInsert(s, c);
    } else if OnInfoPath(s.pc) {
      ClientStepInfo(s, c);
    } else if OnCastPath(s.pc) {
      ClientStepCast(s, c);
    } else if OnCheckPath(s.pc) {
      ClientStepCheck(s, c);
    } else {
      ClientStepDelete(s, c);
    }
  }

  lemma TaskStepOutside(s: State, a: Action, t: Tid)
    requires LifeOk(s) && Enabled(s, a) && Outside(a) && t < |ApplyOutside(s, a).tasks|
    ensures TaskOk(ApplyOutside(s, a), ApplyOutside(s, a).tasks[t])
  {
    if t < |s.tasks| {
      assert TaskOk(s, s.tasks[t]);
    }
  }

  lemma TaskStepTask(s: State, a: Action, t: Tid)
    requires LifeOk(s) && Enabled(s, a) && TaskAction(a) && t < |ApplyTask(s, a).tasks|
    ensures TaskOk(ApplyTask(s, a), ApplyTask(s, a).tasks[t])
  {
    assert |ApplyTask(s, a).tasks| == |s.tasks|;
    assert TaskOk(s, s.tasks[t]);
  }

  lemma TaskStepWriter(s: State, a: Action, t: Tid)
    requires LifeOk(s) && Enabled(s, a) && (a.WriterAttempt? || a.WriterSeesClose?) && t < |s.tasks|
    ensures TaskOk(ApplyWriter(s, a), s.tasks[t])
  {
    assert TaskOk(s, s.tasks[t]);
  }

  lemma TaskStepOther(s: State, a: Action, t: Tid)
    requires LifeOk(s) && Enabled(s, a) && !HubAction(a) && t < |Apply(s, a).tasks|
    ensures TaskOk(Apply(s, a), Apply(s, a).tasks[t])
  {
    if Outside(a) {
      TaskStepOutside(s, a, t);
    } else if TaskAction(a) {
      TaskStepTask(s, a, t);
    } else {
      TaskStepWriter(s, a, t);
    }
  }

  lemma TaskStepTake(s: State, a: Action, t: Tid)
    requires LifeOk(s) && Enabled(s, a) && HubAction(a) && !a.HubStep? && t < |s.tasks|
    ensures TaskOk(Apply(s, a), Apply(s, a).tasks[t])
  {
    assert TaskOk(s, s.tasks[t]);
  }

  lemma TaskStepInsertInfo(s: State, t: Tid)
    requires LifeOk(s) && HubStepEnabled(s) && (OnInsertPath(s.pc) || OnInfoPath(s.pc)) && t < |ApplyHub(s).tasks|
    ensures TaskOk(ApplyHub(s), ApplyHub(s).tasks[t])
  {
    if t < |s.tasks| {
      assert TaskOk(s, s.tasks[t]);
    }
  }

  lemma TaskStepCast(s: State, t: Tid)
    requires LifeOk(s) && HubStepEnabled(s) && OnCastPath(s.pc) && t < |s.tasks|
    ensures |ApplyCast(s).tasks| == |s.tasks| && TaskOk(ApplyCast(s), s.tasks[t])
  {
    assert TaskOk(s, s.tasks[t]);
  }

  /** Deleting waits for the write lock, so no guard is between its check and its send. */
  lemma TaskStepRemove(s: State, t: Tid)
    requires LockOk(s) && LifeOk(s) && HubStepEnabled(s) && t < |s.tasks|
    requires OnCheckPath(s.pc) || OnDeletePath(s.pc)
    ensures |ApplyHub(s).tasks| == |s.tasks| && TaskOk(ApplyHub(s), s.tasks[t])
  {
    assert TaskOk(s, s.tasks[t]);
    assert s.pc.Remove? ==> t !in s.lock.readers;
    if OnCheckPath(s.pc) {
      TaskKept(s, ApplyCheck(s), t);
    } else {
      DeleteKeeps(s);
      TaskKept(s, ApplyDelete(s), t);
    }
  }

  /** A removal registers no one, and only its delete changes the map. */
  lemma DeleteKeeps(s: State)
    requires HubStepEnabled(s) && OnDeletePath(s.pc)
    ensures var s' := ApplyDelete(s);
            && s'.tasks == s.tasks && s'.registerChan == s.registerChan && |s'.clients| == |s.clients|
            && (!s.pc.Remove? ==> s'.members == s.members)
            && (forall c: Cid | c < |s.clients| :: s'.clients[c].joined == s.clients[c].joined)
            && (forall c: Cid :: !Inserting(s'.pc, c))
  {
  }

  lemma TaskKept(s: State, s': State, t: Tid)
    requires t < |s.tasks| && TaskOk(s, s.tasks[t])
    requires s'.registerChan == s.registerChan && |s'.clients| == |s.clients|
    requires forall c: Cid | c < |s.clients| :: s'.clients[c].joined == s.clients[c].joined
    requires forall c: Cid :: !Inserting(s'.pc, c)
    requires s'.members == s.members || !TaskReads(s.tasks[t])
    ensures TaskOk(s', s.tasks[t])
  {
  }

  lemma TaskStepHub(s: State, t: Tid)
    requires LockOk(s) && LifeOk(s) && Enabled(s, HubStep) && t < |ApplyHub(s).tasks|
    ensures TaskOk(ApplyHub(s), ApplyHub(s).tasks[t])
  {
    if OnInsertPath(s.pc) || OnInfoPath(s.pc) {
      TaskStepInsertInfo(s, t);
    } else if OnCastPath(s.pc) {
      TaskStepCast(s, t);
      assert ApplyHub(s).tasks == s.tasks;
    } else {
      assert ApplyHub(s).tasks == s.tasks;
      TaskStepRemove(s, t);
    }
  }

  lemma PcStep(s: State, a: Action)
    requires LifeOk(s) && Enabled(s, a)
    ensures PcOk(Apply(s, a)) && RangesOk(Apply(s, a))
  {
    if a.HubStep? {
      PcStepHub(s);
    } else if HubAction(a) {
      PcStepTake(s, a);
    } else {
      PcStepOther(s, a);
    }
  }

  lemma PcStepHub(s: State)
    requires LifeOk(s) && Enabled(s, HubStep)
    ensures PcOk(ApplyHub(s)) && RangesOk(ApplyHub(s))
  {
    if OnInsertPath(s.pc) {
      PcStepInsert(s);
    } else if OnInfoPath(s.pc) {
      assert ApplyHub(s).clients == s.clients && ApplyHub(s).members == s.members;
    } else if OnCastPath(s.pc) {
      PcStepCast(s);
    } else if OnCheckPath(s.pc) {
      PcStepCheck(s);
    } else {
      PcStepDelete(s);
    }
  }

  lemma PcStepInsert(s: State)
    requires LifeOk(s) && HubStepEnabled(s) && OnInsertPath(s.pc)
    ensures PcOk(ApplyInsert(s)) && RangesOk(ApplyInsert(s))
  {
  }

  lemma PcStepCast(s: State)
    requires LifeOk(s) && HubStepEnabled(s) && OnCastPath(s.pc)
    ensures PcOk(ApplyCast(s)) && RangesOk(ApplyCast(s))
  {
  }

  lemma PcStepCheck(s: State)
    requires LifeOk(s) && HubStepEnabled(s) && OnCheckPath(s.pc)
    ensures PcOk(ApplyCheck(s)) && RangesOk(ApplyCheck(s))
  {
  }

  lemma PcStepDelete(s: State)
    requires LifeOk(s) && HubStepEnabled(s) && OnDeletePath(s.pc)
    ensures PcOk(ApplyDelete(s)) && RangesOk(ApplyDelete(s))
  {
  }

  lemma PcStepTake(s: State, a: Action)
    requires LifeOk(s) && Enabled(s, a) && HubAction(a) && !a.HubStep?
    ensures PcOk(Apply(s, a)) && RangesOk(Apply(s, a))
  {
    assert a.TakeRegister? ==> s.registerChan[0] in s.registerChan;
    assert a.TakeUnregister? ==> s.unregisterChan[0] in s.unregisterChan;
  }

  lemma PcStepOther(s: State, a: Action)
    requires LifeOk(s) && Enabled(s, a) && !HubAction(a)
    ensures PcOk(Apply(s, a)) && RangesOk(Apply(s, a))
  {
    if a.Enroll? || a.EnqueueUnregister? {
      assert TaskOk(s, s.tasks[a.t]);
    }
    assert Apply(s, a).pc == s.pc && Apply(s, a).members == s.members && |Apply(s, a).clients| >= |s.clients|;
  }

  /** A registering handler was one before, or is the one that just arrived. */
  predicate WasRegistering(s: State, a: Action, t: Tid, task: Task) {
    if t < |s.tasks| then s.tasks[t] == task else a.Arrive? && t == |s.tasks| && task == Registering(|s.clients|)
  }

  lemma RegisteringFrom(s: State, a: Action, t: Tid)
    requires Enabled(s, a) && t < |Apply(s, a).tasks| && Apply(s, a).tasks[t].Registering?
    ensures WasRegistering(s, a, t, Apply(s, a).tasks[t])
  {
    if Outside(a) {
      RegisteringFromOutside(s, a, t);
    } else if a.HubStep? {
      assert |s.tasks| <= |ApplyHub(s).tasks| && (s.pc.InfoSpawn? || ApplyHub(s).tasks == s.tasks);
    }
  }

  lemma RegisteringFromOutside(s: State, a: Action, t: Tid)
    requires Enabled(s, a) && Outside(a) && t < |ApplyOutside(s, a).tasks| && ApplyOutside(s, a).tasks[t].Registering?
    ensures WasRegistering(s, a, t, ApplyOutside(s, a).tasks[t])
  {
  }

  lemma RegisteringPair(s: State, a: Action, t: Tid, u: Tid, task: Task)
    requires LifeOk(s) && task.Registering?
    requires WasRegistering(s, a, t, task) && WasRegistering(s, a, u, task)
    ensures t == u
  {
    if t < |s.tasks| {
      assert TaskOk(s, s.tasks[t]);
    }
    if u < |s.tasks| {
      assert TaskOk(s, s.tasks[u]);
    }
  }

  lemma RegisteringStep(s: State, a: Action)
    requires LifeOk(s) && Enabled(s, a)
    ensures RegisteringOnce(Apply(s, a))
  {
    var tasks := Apply(s, a).tasks;
    forall t: Tid, u: Tid | t < |tasks| && u < |tasks| && tasks[t].Registering? && tasks[u] == tasks[t]
      ensures t == u
    {
      RegisteringFrom(s, a, t);
      RegisteringFrom(s, a, u);
      RegisteringPair(s, a, t, u, tasks[t]);
    }
  }

  lemma ClientStep(s: State, a: Action, c: Cid)
    requires LockOk(s) && LifeOk(s) && Enabled(s, a) && c < |Apply(s, a).clients|
    ensures ClientOk(Apply(s, a), c)
  {
    if !HubAction(a) {
      ClientStepOther(s, a, c);
    } else if a.HubStep? {
      ClientStepHub(s, c);
    } else {
      ClientStepTake(s, a, c);
    }
  }

  lemma TaskStep(s: State, a: Action, t: Tid)
    requires LockOk(s) && LifeOk(s) && Enabled(s, a) && t < |Apply(s, a).tasks|
    ensures TaskOk(Apply(s, a), Apply(s, a).tasks[t])
  {
    if !HubAction(a) {
      TaskStepOther(s, a, t);
    } else if a.HubStep? {
      TaskStepHub(s, t);
    } else {
      TaskStepTake(s, a, t);
    }
  }

  lemma LifeStep(s: State, a: Action)
    requires LockOk(s) && LifeOk(s) && Enabled(s, a)
    ensures LifeOk(Apply(s, a))
  {
    var s' := Apply(s, a);
    forall c: Cid | c < |s'.clients|
      ensures ClientOk(s', c)
    {
      ClientStep(s, a, c);
    }
    forall t: Tid | t < |s'.tasks|
      ensures TaskOk(s', s'.tasks[t])
    {
      TaskStep(s, a, t);
    }
    PcStep(s, a);
    RegisteringStep(s, a);
  }

  /** No step sends on a closed channel or closes one twice. */
  lemma StepNeverPanics(s: State, a: Action)
    requires LifeOk(s) && Enabled(s, a)
    ensures !Apply(s, a).panicked
  {
    if a.GuardSend? {
      var task := s.tasks[a.t];
      assert TaskOk(s, task);
      assert ClientOk(s, task.c);
    } else if a.HubStep? && s.pc.CastSend? {
      assert ClientOk(s, s.pc.c);
    } else if a.HubStep? && s.pc.CloseSend? {
      assert ClientOk(s, s.pc.c);
    }
  }

  ghost predicate Sound(s: State) {
    LockOk(s) && LifeOk(s) && !s.panicked
  }

  lemma SoundStep(s: State, a: Action)
    requires Sound(s) && Enabled(s, a)
    ensures Sound(Apply(s, a))
  {
    if HubAction(a) {
      LockStepHub(s, a);
    } else {
      LockStepOther(s, a);
    }
    LifeStep(s, a);
    StepNeverPanics(s, a);
  }

  lemma {:induction false} ReachableIsSound(acts: seq<Action>)
    requires Run(INITIAL, acts).Some?
    ensures Sound(Run(INITIAL, acts).value)
  {
    if acts != [] {
      ReachableIsSound(acts[..|acts| - 1]);
      SoundStep(Run(INITIAL, acts[..|acts| - 1]).value, acts[|acts| - 1]);
    }
  }

  // ---------- theorems ----------

  /** In no schedule does a goroutine send on a closed channel or close one twice: whoever
      is past its membership check, guard or broadcasting hub, still holds the read lock,
      and the client it is about to send to is in the map with its channel open. */
  lemma NoSendOnClosedChannel(acts: seq<Action>, s: State)
    requires Run(INITIAL, acts) == Some(s)
    ensures && !s.panicked
            && (forall t: Tid | GuardAt(s, t, Sends) ::
                  var c := s.tasks[t].c;
                  c < |s.clients| && t in s.lock.readers && c in s.members && !s.clients[c].sendClosed)
            && (s.pc.CastSend? ==>
                  s.lock.hubReads && s.pc.c < |s.clients| && s.pc.c in s.members && !s.clients[s.pc.c].sendClosed)
            && (s.pc.CloseSend? ==> s.pc.c < |s.clients| && !s.clients[s.pc.c].sendClosed)
  {
    ReachableIsSound(acts);
    forall t: Tid | GuardAt(s, t, Sends)
      ensures var c := s.tasks[t].c;
              c < |s.clients| && t in s.lock.readers && c in s.members && !s.clients[c].sendClosed
    {
      assert TaskOk(s, s.tasks[t]);
      assert ClientOk(s, s.tasks[t].c);
    }
    if s.pc.CastSend? || s.pc.CloseSend? {
      assert ClientOk(s, s.pc.c);
    }
  }

  /** The stages of a client's life. */
  datatype Phase = Fresh | Queued | Live | Deleted | Closed

  function PhaseOf(s: State, c: Cid): Phase
    requires c < |s.clients|
  {
    var cl := s.clients[c];
    if cl.sendClosed then Closed
    else if c in s.members then Live
    else if Dropping(s.pc, c) then Deleted
    else if c in s.registerChan || Inserting(s.pc, c) then Queued
    else Fresh
  }

  function Rank(p: Phase): nat {
    match p
    case Fresh => 0
    case Queued => 1
    case Live => 2
    case Deleted => 3
    case Closed => 4
  }

  predicate MovesOn(s: State, s': State, c: Cid)
    requires c < |s.clients|
  {
    && c < |s'.clients|
    && Rank(PhaseOf(s, c)) <= Rank(PhaseOf(s', c)) <= Rank(PhaseOf(s, c)) + 1
  }

  lemma PhaseInsert(s: State, c: Cid)
    requires LifeOk(s) && HubStepEnabled(s) && OnInsertPath(s.pc) && c < |s.clients|
    ensures MovesOn(s, ApplyInsert(s), c)
  {
    assert ClientOk(s, c);
  }

  lemma PhaseRemoved(s: State, c: Cid)
    requires ClientsOk(s) && HubStepEnabled(s) && s.pc.Remove? && c < |s.clients|
    ensures MovesOn(s, ApplyDelete(s), c)
  {
    assert ClientOk(s, c);
  }

  lemma PhaseClosed(s: State, c: Cid)
    requires ClientsOk(s) && HubStepEnabled(s) && s.pc.CloseSend? && c < |s.clients|
    ensures MovesOn(s, ApplyDelete(s), c)
  {
    assert ClientOk(s, c);
    var s' := ApplyDelete(s);
    assert s'.registerChan == s.registerChan && s'.members == s.members;
    assert c != s.pc.c ==> s'.clients[c] == s.clients[c];
  }

  lemma PhaseWaits(s: State, c: Cid)
    requires HubStepEnabled(s) && OnDeletePath(s.pc) && !s.pc.Remove? && !s.pc.CloseSend? && c < |s.clients|
    ensures MovesOn(s, ApplyDelete(s), c)
  {
    var s' := ApplyDelete(s);
    assert s'.registerChan == s.registerChan && |s'.clients| == |s.clients|;
    assert s'.members == s.members && s'.clients[c].sendClosed == s.clients[c].sendClosed;
  }

  lemma PhaseDelete(s: State, c: Cid)
    requires ClientsOk(s) && HubStepEnabled(s) && OnDeletePath(s.pc) && c < |s.clients|
    ensures MovesOn(s, ApplyDelete(s), c)
  {
    if s.pc.Remove? {
      PhaseRemoved(s, c);
    } else if s.pc.CloseSend? {
      PhaseClosed(s, c);
    } else {
      PhaseWaits(s, c);
    }
  }

  lemma PhaseStay(s: State, c: Cid)
    requires HubStepEnabled(s) && (OnInfoPath(s.pc) || OnCastPath(s.pc) || OnCheckPath(s.pc)) && c < |s.clients|
    ensures MovesOn(s, ApplyHub(s), c)
  {
    var s' := ApplyHub(s);
    assert s'.members == s.members && s'.registerChan == s.registerChan && |s'.clients| == |s.clients|;
    assert s'.clients[c].sendClosed == s.clients[c].sendClosed;
  }

  lemma PhaseTake(s: State, a: Action, c: Cid)
    requires LifeOk(s) && Enabled(s, a) && HubAction(a) && !a.HubStep? && c < |s.clients|
    ensures MovesOn(s, Apply(s, a), c)
  {
    var s' := Apply(s, a);
    assert s'.clients == s.clients && s'.members == s.members;
    if a.TakeRegister? {
      assert ClientOk(s, c);
      assert s.registerChan == [s.registerChan[0]];
    } else {
      assert s'.registerChan == s.registerChan && (Inserting(s'.pc, c) <==> Inserting(s.pc, c));
    }
  }

  /** What steps that are not the hub's leave alone. */
  predicate HubUntouched(s: State, s': State) {
    && s'.pc == s.pc && s'.members == s.members && s'.log == s.log && s'.sizes == s.sizes && s'.snaps == s.snaps
    && s.registerChan <= s'.registerChan && |s.clients| <= |s'.clients|
    && (forall c: Cid | c < |s.clients| :: SameMembership(s.clients[c], s'.clients[c]))
    && (forall c: Cid | |s.clients| <= c < |s'.clients| :: s'.clients[c] == NEW_CLIENT)
  }

  predicate SameMembership(cl: Client, cl': Client) {
    cl'.sendClosed == cl.sendClosed && cl'.joined == cl.joined && cl'.left == cl.left
  }

  lemma OthersLeaveHub(s: State, a: Action)
    requires Enabled(s, a) && !HubAction(a)
    ensures HubUntouched(s, Apply(s, a))
  {
    if Outside(a) {
      OutsideLeavesHub(s, a);
    } else if TaskAction(a) {
      TaskLeavesHub(s, a);
    }
  }

  lemma OutsideLeavesHub(s: State, a: Action)
    requires Enabled(s, a) && Outside(a)
    ensures HubUntouched(s, ApplyOutside(s, a))
  {
  }

  lemma TaskLeavesHub(s: State, a: Action)
    requires Enabled(s, a) && TaskAction(a)
    ensures HubUntouched(s, ApplyTask(s, a))
  {
  }

  lemma ClientsOnlyGrow(s: State, a: Action)
    requires Enabled(s, a)
    ensures |s.clients| <= |Apply(s, a).clients|
  {
    if !HubAction(a) {
      OthersLeaveHub(s, a);
    }
  }

  lemma PhaseOther(s: State, s': State, c: Cid)
    requires HubUntouched(s, s') && c < |s.clients|
    ensures MovesOn(s, s', c)
  {
    assert SameMembership(s.clients[c], s'.clients[c]);
  }

  lemma PhaseStep(s: State, a: Action, c: Cid)
    requires LifeOk(s) && Enabled(s, a) && c < |s.clients|
    ensures MovesOn(s, Apply(s, a), c)
  {
    if !HubAction(a) {
      OthersLeaveHub(s, a);
      PhaseOther(s, Apply(s, a), c);
    } else if !a.HubStep? {
      PhaseTake(s, a, c);
    } else if OnInsertPath(s.pc) {
      PhaseInsert(s, c);
    } else if OnDeletePath(s.pc) {
      PhaseDelete(s, c);
    } else {
      PhaseStay(s, c);
    }
  }

  /** Life cycle: in every step of every schedule each client stays in its phase or moves
      to the next one, so it joins and leaves the map at most once, its channel is closed at
      most once, and a closed client never comes back; and the membership the hub checked
      under the read lock still holds when it deletes under the write lock. */
  lemma LifeCycle(acts: seq<Action>, s: State, a: Action, c: Cid)
    requires Run(INITIAL, acts) == Some(s) && Enabled(s, a)
    requires c < |s.clients|
    ensures var s' := Apply(s, a);
            && MovesOn(s, s', c)
            && (Removing(s.pc, c) ==> c in s.members)
  {
    ReachableIsSound(acts);
    PhaseStep(s, a, c);
    assert ClientOk(s, c);
  }

  /** By the time a client's channel is closed its connection already is: the close frame
      the write loop then attempts can no longer be delivered. */
  lemma ConnectionClosedBeforeChannel(acts: seq<Action>, s: State, c: Cid)
    requires Run(INITIAL, acts) == Some(s) && c < |s.clients|
    ensures var cl := s.clients[c]; cl.sendClosed ==> cl.connClosed
  {
    ReachableIsSound(acts);
    assert ClientOk(s, c);
  }
}
