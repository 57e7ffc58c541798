/** The signalling hub as an interleaving step system: the hub's loop, the handler and
    callback goroutines, the write loops and the goroutines that carry viewer counts, over
    unboundedly many clients. Every lock, check, send and close is a step of its own. */
module HubModel {
  import opened Wrappers

  type Cid = nat
  type Tid = nat

  datatype Message = Info(count: nat) | Offer | Candidate

  datatype Frame = Text(m: Message) | Ping | CloseFrame

  /** A write loop waits in its select, holds a message it has received, or has returned. */
  datatype WriterPc = Waiting | Holding(m: Message) | Returned

  /** One client. `taken` and `attempted` record what its write loop received and tried to
      write; `joined` and `left` the length of the hub's broadcast log when it was inserted
      into and deleted from the client map. */
  datatype Client = Client(
    sendClosed: bool,
    connClosed: bool,
    writer: WriterPc,
    taken: seq<Message>,
    attempted: seq<Frame>,
    joined: Option<nat>,
    left: Option<nat>
  )

  const NEW_CLIENT: Client := Client(false, false, Waiting, [], [], None, None)

  /** RLock; is the client in the map?; if so send; RUnlock. */
  datatype GuardPc = WantsRLock | Checks | Sends | Releases

  /** The goroutines other than the hub and the write loops. `handler` marks the websocket
      handler itself, which goes on to read the socket and to unregister; the others are
      callbacks of the peer connection. */
  datatype Task =
    | Registering(c: Cid)
    | Guarded(c: Cid, m: Message, pc: GuardPc, handler: bool)
    | ReadingSocket(c: Cid)
    | Unregistering(c: Cid, handler: bool)
    | ClosingConn(c: Cid)
    | Informing(count: nat)
    | Ended

  /** Where the hub's loop is. */
  datatype HubPc =
    | Selecting
    | InsertLock(c: Cid) | InsertAcquire(c: Cid) | Insert(c: Cid) | InsertUnlock
    | InfoRLock | InfoCount | InfoRUnlock(n: nat) | InfoSpawn(n: nat)
    | RemoveRLock(c: Cid) | RemoveCheck(c: Cid) | RemoveMiss | RemoveHit(c: Cid)
    | RemoveLock(c: Cid) | RemoveAcquire(c: Cid) | Remove(c: Cid) | RemoveUnlock(c: Cid)
    | CloseConn(c: Cid) | CloseSend(c: Cid)
    | CastRLock(n: nat) | Casting(n: nat, todo: set<Cid>) | CastSend(n: nat, c: Cid, todo: set<Cid>)

  /** The read-write mutex: a pending writer keeps new readers out. Only the hub writes. */
  datatype Lock = Lock(hubReads: bool, readers: set<Tid>, pending: bool, writer: bool)

  /** `log` records the counts received for broadcast, `sizes` the size of the map after
      each change, `snaps` the counts handed to the goroutines that carry them. */
  datatype State = State(
    pc: HubPc,
    lock: Lock,
    members: set<Cid>,
    registerChan: seq<Cid>,
    unregisterChan: seq<Cid>,
    clients: seq<Client>,
    tasks: seq<Task>,
    log: seq<nat>,
    sizes: seq<nat>,
    snaps: seq<nat>,
    panicked: bool
  )

  const INITIAL: State :=
    State(Selecting, Lock(false, {}, false, false), {}, [], [], [], [], [], [], [], false)

  const CAPACITY := 1

  datatype Action =
    // the outside world
    | Arrive
    | FireCandidate(c: Cid)
    | FireStateChange(c: Cid)
    | ReadFails(t: Tid)
    | PingTick(c: Cid, ok: bool)
    // the handlers and callbacks
    | Enroll(t: Tid)
    | GuardRLock(t: Tid)
    | GuardCheck(t: Tid)
    | GuardSend(t: Tid)
    | GuardRelease(t: Tid)
    | EnqueueUnregister(t: Tid)
    | CloseAfterRead(t: Tid)
    // the write loops
    | WriterAttempt(c: Cid, ok: bool)
    | WriterSeesClose(c: Cid)
    // the hub
    | TakeRegister
    | TakeUnregister
    | TakeBroadcast(t: Tid)
    | HubPick(c: Cid)
    | HubStep

  predicate Outside(a: Action) {
    a.Arrive? || a.FireCandidate? || a.FireStateChange? || a.ReadFails? || a.PingTick?
  }

  predicate HubAction(a: Action) {
    a.TakeRegister? || a.TakeUnregister? || a.TakeBroadcast? || a.HubPick? || a.HubStep?
  }

  predicate TaskAction(a: Action) {
    !Outside(a) && !HubAction(a) && !a.WriterAttempt? && !a.WriterSeesClose?
  }

  /** The callbacks of a client are set once its handler has sent the registration. */
  predicate CallbacksSet(s: State, c: Cid) {
    c < |s.clients| && Registering(c) !in s.tasks
  }

  predicate GuardAt(s: State, t: Tid, pc: GuardPc) {
    t < |s.tasks| && s.tasks[t].Guarded? && s.tasks[t].pc == pc
  }

  /** A send to `c` can happen now: its write loop receives, or (a panic) its channel is closed. */
  predicate CanSend(s: State, c: Cid) {
    c < |s.clients| && (s.clients[c].sendClosed || s.clients[c].writer.Waiting?)
  }

  predicate CanRead(s: State) {
    !s.lock.pending && !s.lock.writer
  }

  predicate HubStepEnabled(s: State) {
    match s.pc
    case Selecting => false
    case InsertAcquire(_) => s.lock.readers == {} && !s.lock.hubReads
    case RemoveAcquire(_) => s.lock.readers == {} && !s.lock.hubReads
    case InfoRLock => CanRead(s)
    case RemoveRLock(_) => CanRead(s)
    case CastRLock(_) => CanRead(s)
    case Insert(c) => c < |s.clients|
    case Remove(c) => c < |s.clients|
    case CloseConn(c) => c < |s.clients|
    case CloseSend(c) => c < |s.clients|
    case Casting(_, todo) => todo == {}
    case CastSend(_, c, _) => CanSend(s, c)
    case _ => true
  }

  predicate Enabled(s: State, a: Action) {
    !s.panicked &&
    match a
    case Arrive => true
    case FireCandidate(c) => CallbacksSet(s, c)
    case FireStateChange(c) => CallbacksSet(s, c)
    case ReadFails(t) => t < |s.tasks| && s.tasks[t].ReadingSocket?
    case PingTick(c, ok) => c < |s.clients| && s.clients[c].writer.Waiting? && (ok ==> !s.clients[c].connClosed)
    case Enroll(t) => t < |s.tasks| && s.tasks[t].Registering? && |s.registerChan| < CAPACITY
    case GuardRLock(t) => GuardAt(s, t, WantsRLock) && CanRead(s)
    case GuardCheck(t) => GuardAt(s, t, Checks)
    case GuardSend(t) => GuardAt(s, t, Sends) && CanSend(s, s.tasks[t].c)
    case GuardRelease(t) => GuardAt(s, t, Releases)
    case EnqueueUnregister(t) => t < |s.tasks| && s.tasks[t].Unregistering? && |s.unregisterChan| < CAPACITY
    case CloseAfterRead(t) => t < |s.tasks| && s.tasks[t].ClosingConn? && s.tasks[t].c < |s.clients|
    case WriterAttempt(c, ok) => c < |s.clients| && s.clients[c].writer.Holding? && (ok ==> !s.clients[c].connClosed)
    case WriterSeesClose(c) => c < |s.clients| && s.clients[c].writer.Waiting? && s.clients[c].sendClosed
    case TakeRegister => s.pc.Selecting? && s.registerChan != []
    case TakeUnregister => s.pc.Selecting? && s.unregisterChan != []
    case TakeBroadcast(t) => s.pc.Selecting? && t < |s.tasks| && s.tasks[t].Informing?
    case HubPick(c) => s.pc.Casting? && c in s.pc.todo
    case HubStep => HubStepEnabled(s)
  }

  function SetTask(s: State, t: Tid, task: Task): State
    requires t < |s.tasks|
  {
    s.(tasks := s.tasks[t := task])
  }

  function Spawn(s: State, task: Task): State {
    s.(tasks := s.tasks + [task])
  }

  function SetClient(s: State, c: Cid, cl: Client): State
    requires c < |s.clients|
  {
    s.(clients := s.clients[c := cl])
  }

  /** The rendezvous on a client's unbuffered channel; sending on a closed one panics. */
  function Deliver(s: State, c: Cid, m: Message): State
    requires CanSend(s, c)
  {
    var cl := s.clients[c];
    if cl.sendClosed then s.(panicked := true)
    else SetClient(s, c, cl.(writer := Holding(m), taken := cl.taken + [m]))
  }

  function ApplyOutside(s: State, a: Action): State
    requires Enabled(s, a) && Outside(a)
  {
    match a
    case Arrive => Spawn(s.(clients := s.clients + [NEW_CLIENT]), Registering(|s.clients|))
    case FireCandidate(c) => Spawn(s, Guarded(c, Candidate, WantsRLock, false))
    case FireStateChange(c) => Spawn(s, Unregistering(c, false))
    case ReadFails(t) => SetTask(s, t, Unregistering(s.tasks[t].c, true))
    case PingTick(c, ok) =>
      var cl := s.clients[c];
      var tried := cl.(attempted := cl.attempted + [Ping]);
      SetClient(s, c, if ok then tried else tried.(writer := Returned, connClosed := true))
  }

  function ApplyTask(s: State, a: Action): State
    requires Enabled(s, a) && TaskAction(a)
  {
    var t := a.t;
    var task := s.tasks[t];
    match a
    case Enroll(_) =>
      SetTask(s, t, Guarded(task.c, Offer, WantsRLock, true)).(registerChan := s.registerChan + [task.c])
    case GuardRLock(_) =>
      SetTask(s, t, task.(pc := Checks)).(lock := s.lock.(readers := s.lock.readers + {t}))
    case GuardCheck(_) =>
      SetTask(s, t, task.(pc := if task.c in s.members then Sends else Releases))
    case GuardSend(_) =>
      SetTask(Deliver(s, task.c, task.m), t, task.(pc := Releases))
    case GuardRelease(_) =>
      SetTask(s, t, if task.handler then ReadingSocket(task.c) else Ended)
        .(lock := s.lock.(readers := s.lock.readers - {t}))
    case EnqueueUnregister(_) =>
      SetTask(s, t, if task.handler then ClosingConn(task.c) else Ended)
        .(unregisterChan := s.unregisterChan + [task.c])
    case CloseAfterRead(_) =>
      SetTask(SetClient(s, task.c, s.clients[task.c].(connClosed := true)), t, Ended)
  }

  function ApplyWriter(s: State, a: Action): State
    requires Enabled(s, a) && (a.WriterAttempt? || a.WriterSeesClose?)
  {
    var cl := s.clients[a.c];
    if a.WriterAttempt? then
      var tried := cl.(attempted := cl.attempted + [Text(cl.writer.m)]);
      SetClient(s, a.c, if a.ok then tried.(writer := Waiting) else tried.(writer := Returned, connClosed := true))
    else
      SetClient(s, a.c, cl.(attempted := cl.attempted + [CloseFrame], writer := Returned, connClosed := true))
  }

  predicate OnInsertPath(pc: HubPc) {
    pc.InsertLock? || pc.InsertAcquire? || pc.Insert? || pc.InsertUnlock?
  }

  predicate OnInfoPath(pc: HubPc) {
    pc.InfoRLock? || pc.InfoCount? || pc.InfoRUnlock? || pc.InfoSpawn?
  }

  predicate OnCastPath(pc: HubPc) {
    pc.CastRLock? || pc.Casting? || pc.CastSend?
  }

  /** Lock; insert the client; Unlock. */
  function ApplyInsert(s: State): State
    requires HubStepEnabled(s) && OnInsertPath(s.pc)
  {
    match s.pc
    case InsertLock(c) => s.(pc := InsertAcquire(c), lock := s.lock.(pending := true))
    case InsertAcquire(c) => s.(pc := Insert(c), lock := s.lock.(pending := false, writer := true))
    case Insert(c) =>
      SetClient(s, c, s.clients[c].(joined := Some(|s.log|)))
        .(pc := InsertUnlock, members := s.members + {c}, sizes := s.sizes + [|s.members + {c}|])
    case InsertUnlock => s.(pc := InfoRLock, lock := s.lock.(writer := false))
  }

  /** Count the clients under the read lock, then start a goroutine that carries the count. */
  function ApplyInfo(s: State): State
    requires HubStepEnabled(s) && OnInfoPath(s.pc)
  {
    match s.pc
    case InfoRLock => s.(pc := InfoCount, lock := s.lock.(hubReads := true))
    case InfoCount => s.(pc := InfoRUnlock(|s.members|))
    case InfoRUnlock(n) => s.(pc := InfoSpawn(n), lock := s.lock.(hubReads := false))
    case InfoSpawn(n) => Spawn(s, Informing(n)).(pc := Selecting, snaps := s.snaps + [n])
  }

  predicate OnCheckPath(pc: HubPc) {
    pc.RemoveRLock? || pc.RemoveCheck? || pc.RemoveMiss? || pc.RemoveHit?
  }

  predicate OnDeletePath(pc: HubPc) {
    pc.RemoveLock? || pc.RemoveAcquire? || pc.Remove? || pc.RemoveUnlock? || pc.CloseConn? || pc.CloseSend?
  }

  /** Check under the read lock whether the client is in the map. */
  function ApplyCheck(s: State): State
    requires HubStepEnabled(s) && OnCheckPath(s.pc)
  {
    match s.pc
    case RemoveRLock(c) => s.(pc := RemoveCheck(c), lock := s.lock.(hubReads := true))
    case RemoveCheck(c) => s.(pc := if c in s.members then RemoveHit(c) else RemoveMiss)
    case RemoveMiss => s.(pc := Selecting, lock := s.lock.(hubReads := false))
    case RemoveHit(c) => s.(pc := RemoveLock(c), lock := s.lock.(hubReads := false))
  }

  /** Delete it under the write lock, close the connection, then the channel. */
  function ApplyDelete(s: State): State
    requires HubStepEnabled(s) && OnDeletePath(s.pc)
  {
    match s.pc
    case RemoveLock(c) => s.(pc := RemoveAcquire(c), lock := s.lock.(pending := true))
    case RemoveAcquire(c) => s.(pc := Remove(c), lock := s.lock.(pending := false, writer := true))
    case Remove(c) =>
      SetClient(s, c, s.clients[c].(left := Some(|s.log|)))
        .(pc := RemoveUnlock(c), members := s.members - {c}, sizes := s.sizes + [|s.members - {c}|])
    case RemoveUnlock(c) => s.(pc := CloseConn(c), lock := s.lock.(writer := false))
    case CloseConn(c) => SetClient(s, c, s.clients[c].(connClosed := true)).(pc := CloseSend(c))
    case CloseSend(c) =>
      if s.clients[c].sendClosed then s.(panicked := true)
      else SetClient(s, c, s.clients[c].(sendClosed := true)).(pc := InfoRLock)
  }

  /** Send to every client of the map, in any order, under the read lock. */
  function ApplyCast(s: State): State
    requires HubStepEnabled(s) && OnCastPath(s.pc)
  {
    match s.pc
    case CastRLock(n) => s.(pc := Casting(n, s.members), lock := s.lock.(hubReads := true))
    case Casting(_, _) => s.(pc := Selecting, lock := s.lock.(hubReads := false))
    case CastSend(n, c, todo) => Deliver(s, c, Info(n)).(pc := Casting(n, todo))
  }

  function ApplyHub(s: State): State
    requires HubStepEnabled(s)
  {
    if OnInsertPath(s.pc) then ApplyInsert(s)
    else if OnInfoPath(s.pc) then ApplyInfo(s)
    else if OnCastPath(s.pc) then ApplyCast(s)
    else if OnCheckPath(s.pc) then ApplyCheck(s)
    else ApplyDelete(s)
  }

  function ApplyHubAction(s: State, a: Action): State
    requires Enabled(s, a) && HubAction(a)
  {
    match a
    case TakeRegister => s.(pc := InsertLock(s.registerChan[0]), registerChan := s.registerChan[1..])
    case TakeUnregister => s.(pc := RemoveRLock(s.unregisterChan[0]), unregisterChan := s.unregisterChan[1..])
    case TakeBroadcast(t) =>
      SetTask(s, t, Ended).(pc := CastRLock(s.tasks[t].count), log := s.log + [s.tasks[t].count])
    case HubPick(c) => s.(pc := CastSend(s.pc.n, c, s.pc.todo - {c}))
    case HubStep => ApplyHub(s)
  }

  function Apply(s: State, a: Action): State
    requires Enabled(s, a)
  {
    if Outside(a) then ApplyOutside(s, a)
    else if HubAction(a) then ApplyHubAction(s, a)
    else if a.WriterAttempt? || a.WriterSeesClose? then ApplyWriter(s, a)
    else ApplyTask(s, a)
  }

  /** The state after a schedule, if every step of it was possible. */
  function Run(start: State, acts: seq<Action>): Option<State> {
    if acts == [] then Some(start)
    else
      match Run(start, acts[..|acts| - 1])
      case None => None
      case Some(s) =>
        var a := acts[|acts| - 1];
        if Enabled(s, a) then Some(Apply(s, a)) else None
  }

  lemma RunSnoc(start: State, acts: seq<Action>, a: Action)
    ensures var r := Run(start, acts);
            Run(start, acts + [a]) == if r.Some? && Enabled(r.value, a) then Some(Apply(r.value, a)) else None
  {
    assert (acts + [a])[..|acts|] == acts;
  }

  /** Schedules compose. */
  lemma {:induction false} RunThenRun(start: State, acts: seq<Action>, more: seq<Action>)
    requires Run(start, acts).Some?
    ensures Run(start, acts + more) == Run(Run(start, acts).value, more)
  {
    if more == [] {
      assert acts + [] == acts;
    } else {
      var init, a := more[..|more| - 1], more[|more| - 1];
      RunThenRun(start, acts, init);
      RunSnoc(start, acts + init, a);
      RunSnoc(Run(start, acts).value, init, a);
      assert more == init + [a] && acts + more == acts + init + [a];
    }
  }

  lemma RunCons(start: State, a: Action, rest: seq<Action>)
    requires Enabled(start, a)
    ensures Run(start, [a] + rest) == Run(Apply(start, a), rest)
  {
    RunSnoc(start, [], a);
    assert [] + [a] == [a];
    RunThenRun(start, [a], rest);
  }
}
