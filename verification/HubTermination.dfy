/** How long the protocol can run: every step that is not the outside world's lowers a
    measure that the outside world raises by a bounded amount per event. */
module HubTermination {
  import opened Wrappers
  import opened HubModel
  import opened HubSafety
  import opened HubLiveness

  /** The cost of a count carried by a goroutine, with at most `n` clients. */
  function InfoCost(n: nat): nat {
    3 * n + 3
  }

  function InsertCost(n: nat): nat {
    InfoCost(n) + 9
  }

  function RemoveCost(n: nat): nat {
    InfoCost(n) + 14
  }

  function PcCost(pc: HubPc, n: nat): nat {
    match pc
    case Selecting => 0
    case InsertLock(_) => InfoCost(n) + 8
    case InsertAcquire(_) => InfoCost(n) + 7
    case Insert(_) => InfoCost(n) + 6
    case InsertUnlock => InfoCost(n) + 5
    case InfoRLock => InfoCost(n) + 4
    case InfoCount => InfoCost(n) + 3
    case InfoRUnlock(_) => InfoCost(n) + 2
    case InfoSpawn(_) => InfoCost(n) + 1
    case RemoveRLock(_) => InfoCost(n) + 13
    case RemoveCheck(_) => InfoCost(n) + 12
    case RemoveMiss => 1
    case RemoveHit(_) => InfoCost(n) + 11
    case RemoveLock(_) => InfoCost(n) + 10
    case RemoveAcquire(_) => InfoCost(n) + 9
    case Remove(_) => InfoCost(n) + 8
    case RemoveUnlock(_) => InfoCost(n) + 7
    case CloseConn(_) => InfoCost(n) + 6
    case CloseSend(_) => InfoCost(n) + 5
    case CastRLock(_) => 3 * n + 2
    case Casting(_, todo) => 3 * |todo| + 1
    case CastSend(_, _, todo) => 3 * |todo| + 3
  }

  function GuardCost(pc: GuardPc): nat {
    match pc
    case WantsRLock => 5
    case Checks => 4
    case Sends => 3
    case Releases => 1
  }

  function TaskCost(task: Task, n: nat): nat {
    match task
    case Registering(_) => InsertCost(n) + 6
    case Guarded(_, _, pc, _) => GuardCost(pc)
    case ReadingSocket(_) => 0
    case Unregistering(_, handler) => RemoveCost(n) + if handler then 2 else 1
    case ClosingConn(_) => 1
    case Informing(_) => InfoCost(n)
    case Ended => 0
  }

  function WriterCost(cl: Client): nat {
    match cl.writer
    case Waiting => 1
    case Holding(_) => 2
    case Returned => 0
  }

  function TasksCost(tasks: seq<Task>, n: nat): nat {
    if tasks == [] then 0 else TasksCost(tasks[..|tasks| - 1], n) + TaskCost(tasks[|tasks| - 1], n)
  }

  function WritersCost(clients: seq<Client>): nat {
    if clients == [] then 0 else WritersCost(clients[..|clients| - 1]) + WriterCost(clients[|clients| - 1])
  }

  function Queued(k: nat, cost: nat): nat {
    k * cost
  }

  function Cost(s: State, n: nat): nat {
    PcCost(s.pc, n) + TasksCost(s.tasks, n) + WritersCost(s.clients)
    + Queued(|s.registerChan|, InsertCost(n)) + Queued(|s.unregisterChan|, RemoveCost(n))
  }

  lemma TasksCostSnoc(tasks: seq<Task>, task: Task, n: nat)
    ensures TasksCost(tasks + [task], n) == TasksCost(tasks, n) + TaskCost(task, n)
  {
    assert (tasks + [task])[..|tasks|] == tasks;
  }

  lemma {:induction false} TasksCostUpdate(tasks: seq<Task>, t: Tid, task: Task, n: nat)
    requires t < |tasks|
    ensures TasksCost(tasks[t := task], n) + TaskCost(tasks[t], n) == TasksCost(tasks, n) + TaskCost(task, n)
  {
    var k := |tasks| - 1;
    if t == k {
      assert tasks[t := task][..k] == tasks[..k];
    } else {
      TasksCostUpdate(tasks[..k], t, task, n);
      assert tasks[t := task][..k] == tasks[..k][t := task];
    }
  }

  lemma WritersCostSnoc(clients: seq<Client>, cl: Client)
    ensures WritersCost(clients + [cl]) == WritersCost(clients) + WriterCost(cl)
  {
    assert (clients + [cl])[..|clients|] == clients;
  }

  lemma {:induction false} WritersCostUpdate(clients: seq<Client>, c: Cid, cl: Client)
    requires c < |clients|
    ensures WritersCost(clients[c := cl]) + WriterCost(clients[c]) == WritersCost(clients) + WriterCost(cl)
  {
    var k := |clients| - 1;
    if c == k {
      assert clients[c := cl][..k] == clients[..k];
    } else {
      WritersCostUpdate(clients[..k], c, cl);
      assert clients[c := cl][..k] == clients[..k][c := cl];
    }
  }

  // ---------- the members are clients ----------

  lemma {:induction false} CountBelow(xs: set<nat>, n: nat)
    requires forall x | x in xs :: x < n
    ensures |xs| <= n
  {
    if n == 0 {
      assert xs == {};
    } else {
      CountBelow(xs - {n - 1}, n - 1);
      assert xs <= xs - {n - 1} + {n - 1};
      assert |xs - {n - 1}| >= |xs| - 1;
    }
  }

  // ---------- one step ----------

  /** What one event of the outside world can add. */
  function EventCost(n: nat): nat {
    3 * n + 19
  }

  lemma OutsideCost(s: State, a: Action, n: nat)
    requires Enabled(s, a) && Outside(a)
    ensures Cost(ApplyOutside(s, a), n) <= Cost(s, n) + EventCost(n)
  {
    var s' := ApplyOutside(s, a);
    match a
    case Arrive =>
      TasksCostSnoc(s.tasks, Registering(|s.clients|), n);
      WritersCostSnoc(s.clients, NEW_CLIENT);
    case FireCandidate(c) => TasksCostSnoc(s.tasks, Guarded(c, Candidate, WantsRLock, false), n);
    case FireStateChange(c) => TasksCostSnoc(s.tasks, Unregistering(c, false), n);
    case ReadFails(t) => TasksCostUpdate(s.tasks, t, s'.tasks[t], n);
    case PingTick(c, _) => WritersCostUpdate(s.clients, c, s'.clients[c]);
  }

  lemma GuardSendCost(s: State, t: Tid, n: nat)
    requires Enabled(s, GuardSend(t)) && !ApplyTask(s, GuardSend(t)).panicked
    ensures Cost(ApplyTask(s, GuardSend(t)), n) < Cost(s, n)
  {
    var s' := ApplyTask(s, GuardSend(t));
    var c := s.tasks[t].c;
    TasksCostUpdate(s.tasks, t, s'.tasks[t], n);
    WritersCostUpdate(s.clients, c, s'.clients[c]);
  }

  lemma TaskActionCost(s: State, a: Action, n: nat)
    requires Enabled(s, a) && TaskAction(a) && !ApplyTask(s, a).panicked
    ensures Cost(ApplyTask(s, a), n) < Cost(s, n)
  {
    var s' := ApplyTask(s, a);
    if a.GuardSend? {
      GuardSendCost(s, a.t, n);
    } else {
      TasksCostUpdate(s.tasks, a.t, s'.tasks[a.t], n);
      if a.CloseAfterRead? {
        WritersCostUpdate(s.clients, s.tasks[a.t].c, s'.clients[s.tasks[a.t].c]);
      } else if a.Enroll? {
        OneLess(|s'.registerChan|, InsertCost(n));
      } else if a.EnqueueUnregister? {
        OneLess(|s'.unregisterChan|, RemoveCost(n));
      }
    }
  }

  lemma WriterActionCost(s: State, a: Action, n: nat)
    requires Enabled(s, a) && (a.WriterAttempt? || a.WriterSeesClose?)
    ensures Cost(ApplyWriter(s, a), n) < Cost(s, n)
  {
    WritersCostUpdate(s.clients, a.c, ApplyWriter(s, a).clients[a.c]);
  }

  lemma OneLess(k: nat, cost: nat)
    requires k > 0
    ensures Queued(k - 1, cost) + cost == Queued(k, cost)
  {
  }

  lemma TakeBroadcastCost(s: State, t: Tid, n: nat)
    requires Enabled(s, TakeBroadcast(t))
    ensures Cost(ApplyHubAction(s, TakeBroadcast(t)), n) < Cost(s, n)
  {
    TasksCostUpdate(s.tasks, t, Ended, n);
  }

  lemma TakeChanCost(s: State, a: Action, n: nat)
    requires Enabled(s, a) && (a.TakeRegister? || a.TakeUnregister?)
    ensures Cost(ApplyHubAction(s, a), n) < Cost(s, n)
  {
    if a.TakeRegister? {
      OneLess(|s.registerChan|, InsertCost(n));
    } else {
      OneLess(|s.unregisterChan|, RemoveCost(n));
    }
  }

  lemma TakeCost(s: State, a: Action, n: nat)
    requires Enabled(s, a) && HubAction(a) && !a.HubStep?
    ensures Cost(ApplyHubAction(s, a), n) < Cost(s, n)
  {
    if a.TakeBroadcast? {
      TakeBroadcastCost(s, a.t, n);
    } else if a.HubPick? {
      assert |s.pc.todo - {a.c}| == |s.pc.todo| - 1;
    } else {
      TakeChanCost(s, a, n);
    }
  }

  lemma CastCost(s: State, n: nat)
    requires LifeOk(s) && !s.panicked && HubStepEnabled(s) && OnCastPath(s.pc) && |s.clients| <= n
    requires !ApplyCast(s).panicked
    ensures Cost(ApplyCast(s), n) < Cost(s, n)
  {
    if s.pc.CastRLock? {
      CountBelow(s.members, |s.clients|);
    } else if s.pc.CastSend? {
      WritersCostUpdate(s.clients, s.pc.c, ApplyCast(s).clients[s.pc.c]);
    }
  }

  lemma InsertPathCost(s: State, n: nat)
    requires HubStepEnabled(s) && OnInsertPath(s.pc)
    ensures Cost(ApplyInsert(s), n) < Cost(s, n)
  {
    if s.pc.Insert? {
      WritersCostUpdate(s.clients, s.pc.c, ApplyInsert(s).clients[s.pc.c]);
    }
  }

  lemma InfoPathCost(s: State, n: nat)
    requires HubStepEnabled(s) && OnInfoPath(s.pc)
    ensures Cost(ApplyInfo(s), n) < Cost(s, n)
  {
    if s.pc.InfoSpawn? {
      TasksCostSnoc(s.tasks, Informing(s.pc.n), n);
    }
  }

  lemma DeleteClientCost(s: State, n: nat)
    requires HubStepEnabled(s) && s.pc.Remove?
    ensures Cost(ApplyDelete(s), n) < Cost(s, n)
  {
    WritersCostUpdate(s.clients, s.pc.c, ApplyDelete(s).clients[s.pc.c]);
  }

  lemma CloseClientCost(s: State, n: nat)
    requires HubStepEnabled(s) && (s.pc.CloseConn? || s.pc.CloseSend?)
    requires !ApplyDelete(s).panicked
    ensures Cost(ApplyDelete(s), n) < Cost(s, n)
  {
    WritersCostUpdate(s.clients, s.pc.c, ApplyDelete(s).clients[s.pc.c]);
  }

  lemma DeletePathCost(s: State, n: nat)
    requires HubStepEnabled(s) && OnDeletePath(s.pc) && !ApplyDelete(s).panicked
    ensures Cost(ApplyDelete(s), n) < Cost(s, n)
  {
    if s.pc.Remove? {
      DeleteClientCost(s, n);
    } else if s.pc.CloseConn? || s.pc.CloseSend? {
      CloseClientCost(s, n);
    }
  }

  lemma CheckPathCost(s: State, n: nat)
    requires HubStepEnabled(s) && OnCheckPath(s.pc)
    ensures Cost(ApplyCheck(s), n) < Cost(s, n)
  {
  }

  /** Every step of the protocol lowers the measure. */
  lemma ProtocolStepCost(s: State, a: Action, n: nat)
    requires Sound(s) && Enabled(s, a) && !Outside(a) && |s.clients| <= n
    ensures Cost(Apply(s, a), n) < Cost(s, n)
  {
    StepNeverPanics(s, a);
    if TaskAction(a) {
      TaskActionCost(s, a, n);
    } else if !HubAction(a) {
      WriterActionCost(s, a, n);
    } else if !a.HubStep? {
      TakeCost(s, a, n);
    } else if OnInsertPath(s.pc) {
      InsertPathCost(s, n);
    } else if OnInfoPath(s.pc) {
      InfoPathCost(s, n);
    } else if OnCastPath(s.pc) {
      CastCost(s, n);
    } else if OnCheckPath(s.pc) {
      CheckPathCost(s, n);
    } else {
      DeletePathCost(s, n);
    }
  }

  // ---------- whole runs ----------

  function Events(acts: seq<Action>): nat {
    if acts == [] then 0 else Events(acts[..|acts| - 1]) + if Outside(acts[|acts| - 1]) then 1 else 0
  }

  function Steps(acts: seq<Action>): nat {
    if acts == [] then 0 else Steps(acts[..|acts| - 1]) + if Outside(acts[|acts| - 1]) then 0 else 1
  }

  /** Termination with a bound: with at most n clients, a run in which the outside world
      acts E times (clients arriving, callbacks firing, reads failing, ping ticks) has at
      most (3n + 19)·E protocol steps, whatever the interleaving. */
  lemma {:induction false} StepsBound(acts: seq<Action>, n: nat)
    requires Run(INITIAL, acts).Some? && |Run(INITIAL, acts).value.clients| <= n
    ensures Steps(acts) + Cost(Run(INITIAL, acts).value, n) <= Events(acts) * EventCost(n)
  {
    if acts != [] {
      var init, a := acts[..|acts| - 1], acts[|acts| - 1];
      var s := Run(INITIAL, init).value;
      ClientsOnlyGrow(s, a);
      StepsBound(init, n);
      ReachableIsSound(init);
      if Outside(a) {
        OutsideCost(s, a, n);
        assert (Events(init) + 1) * EventCost(n) == Events(init) * EventCost(n) + EventCost(n);
      } else {
        ProtocolStepCost(s, a, n);
      }
    }
  }

  lemma NoOneArrives(s: State, a: Action)
    requires Enabled(s, a) && !Outside(a)
    ensures |Apply(s, a).clients| == |s.clients|
  {
    if a.HubStep? {
      HubKeepsClients(s);
    }
  }

  lemma HubKeepsClients(s: State)
    requires HubStepEnabled(s)
    ensures |ApplyHub(s).clients| == |s.clients|
  {
  }

  lemma {:induction false} ProtocolRunCost(s: State, more: seq<Action>, t: State)
    requires Sound(s) && Run(s, more) == Some(t)
    requires forall k | 0 <= k < |more| :: !Outside(more[k])
    ensures Sound(t) && |t.clients| == |s.clients|
    ensures |more| + Cost(t, |s.clients|) <= Cost(s, |s.clients|)
  {
    if more != [] {
      var init, a := more[..|more| - 1], more[|more| - 1];
      var u := Run(s, init).value;
      ProtocolRunCost(s, init, u);
      SoundStep(u, a);
      NoOneArrives(u, a);
      ProtocolStepCost(u, a, |s.clients|);
    }
  }

  /** However the protocol goes on by itself from a reachable state, it takes no more steps
      than the bound, and where it cannot go on everything pending has been served or a
      sender faces a returned write loop. */
  lemma ServedOrFacing(acts: seq<Action>, s: State, more: seq<Action>, t: State)
    requires Run(INITIAL, acts) == Some(s) && Run(s, more) == Some(t)
    requires forall k | 0 <= k < |more| :: !Outside(more[k])
    ensures |more| <= Cost(s, |s.clients|)
    ensures (forall a: Action | !Outside(a) :: !Enabled(t, a)) ==> Idle(t) || Facing(t)
  {
    ReachableIsSound(acts);
    ProtocolRunCost(s, more, t);
    if !Idle(t) && !Facing(t) {
      var a := SomethingMoves(t);
    }
  }
}
