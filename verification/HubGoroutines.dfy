/** The goroutines of the hub's clients as programs: what each was started for decides, step
    by step, what it does, and so what it sends to whom. */
module HubGoroutines {
  import opened Wrappers
  import opened HubModel
  import opened HubSafety

  /** What a goroutine was started for: a websocket, an ICE candidate, a connection state or
      carrying a count. */
  datatype Origin = Handler(c: Cid) | OnCandidate(c: Cid) | OnStateChange(c: Cid) | Carrier(n: nat)

  function Started(s: State, a: Action): seq<Origin> {
    match a
    case Arrive => [Handler(|s.clients|)]
    case FireCandidate(c) => [OnCandidate(c)]
    case FireStateChange(c) => [OnStateChange(c)]
    case HubStep => if s.pc.InfoSpawn? then [Carrier(s.pc.n)] else []
    case _ => []
  }

  /** The goroutines of a run, in the order in which they were started. */
  function Origins(acts: seq<Action>): seq<Origin> {
    if acts == [] then []
    else
      var init := acts[..|acts| - 1];
      var r := Run(INITIAL, init);
      Origins(init) + if r.Some? then Started(r.value, acts[|acts| - 1]) else []
  }

  /** A step that goroutine `t` takes part in. */
  predicate OwnStep(a: Action, t: Tid) {
    || a == Enroll(t)
    || a == GuardRLock(t) || a == GuardCheck(t) || a == GuardSend(t) || a == GuardRelease(t)
    || a == ReadFails(t) || a == EnqueueUnregister(t) || a == CloseAfterRead(t)
    || a == TakeBroadcast(t)
  }

  function Own(acts: seq<Action>, t: Tid): seq<Action> {
    if acts == [] then []
    else
      var a := acts[|acts| - 1];
      Own(acts[..|acts| - 1], t) + if OwnStep(a, t) then [a] else []
  }

  /** The check of goroutine `t` finds the client it works for in the map. */
  predicate Finds(s: State, a: Action, o: Origin, t: Tid) {
    a == GuardCheck(t) && !o.Carrier? && o.c in s.members
  }

  predicate Found(acts: seq<Action>, o: Origin, t: Tid) {
    acts != [] &&
      var init := acts[..|acts| - 1];
      var r := Run(INITIAL, init);
      Found(init, o, t) || (r.Some? && Finds(r.value, acts[|acts| - 1], o, t))
  }

  // ---------- the programs ----------

  /** RLock; if the client is in the map, send; RUnlock. */
  function GuardedSend(t: Tid, found: bool): seq<Action> {
    if found then [GuardRLock(t), GuardCheck(t), GuardSend(t), GuardRelease(t)]
    else [GuardRLock(t), GuardCheck(t), GuardRelease(t)]
  }

  /** The handler registers its client, sends the offer, reads until that fails, unregisters
      and closes the connection; a candidate is sent, a state change unregisters, a count is
      taken by the hub. */
  function Program(o: Origin, t: Tid, found: bool): seq<Action> {
    match o
    case Handler(_) =>
      [Enroll(t)] + GuardedSend(t, found) + [ReadFails(t), EnqueueUnregister(t), CloseAfterRead(t)]
    case OnCandidate(_) => GuardedSend(t, found)
    case OnStateChange(_) => [EnqueueUnregister(t)]
    case Carrier(_) => [TakeBroadcast(t)]
  }

  /** Where in a guarded send of `m` for `c` the goroutine is after `k` steps, or `after` it. */
  function GuardAfter(c: Cid, m: Message, handler: bool, found: bool, k: nat, after: Task): Task {
    if k == 0 then Guarded(c, m, WantsRLock, handler)
    else if k == 1 then Guarded(c, m, Checks, handler)
    else if k == 2 && found then Guarded(c, m, Sends, handler)
    else if k == (if found then 3 else 2) then Guarded(c, m, Releases, handler)
    else after
  }

  function HandlerAfter(c: Cid, left: nat): Task {
    if left == 3 then ReadingSocket(c)
    else if left == 2 then Unregistering(c, true)
    else if left == 1 then ClosingConn(c)
    else Ended
  }

  /** The state of a goroutine after `k` steps of its program. */
  function TaskAfter(o: Origin, found: bool, k: nat): Task {
    match o
    case Handler(c) =>
      var all := if found then 8 else 7;
      if k == 0 then Registering(c)
      else GuardAfter(c, Offer, true, found, k - 1, HandlerAfter(c, if k <= all then all - k else 0))
    case OnCandidate(c) => GuardAfter(c, Candidate, false, found, k, Ended)
    case OnStateChange(c) => if k == 0 then Unregistering(c, false) else Ended
    case Carrier(n) => if k == 0 then Informing(n) else Ended
  }

  /** The steps up to and including the check. */
  function ToCheck(o: Origin): nat {
    if o.Handler? then 3 else 2
  }

  /** A goroutine that has taken the steps `own` of its program. */
  predicate Runs(o: Origin, t: Tid, found: bool, own: seq<Action>, task: Task) {
    && own <= Program(o, t, found)
    && task == TaskAfter(o, found, |own|)
    && (found ==> (o.Handler? || o.OnCandidate?) && |own| >= ToCheck(o))
  }

  // ---------- one step ----------

  lemma NotOwn(s: State, a: Action, t: Tid)
    requires Enabled(s, a) && !OwnStep(a, t) && t < |s.tasks|
    ensures t < |Apply(s, a).tasks| && Apply(s, a).tasks[t] == s.tasks[t]
  {
    if a.HubStep? {
      HubLeavesTask(s, t);
    } else if TaskAction(a) {
      assert a.t != t;
    }
  }

  lemma HubLeavesTask(s: State, t: Tid)
    requires HubStepEnabled(s) && t < |s.tasks|
    ensures t < |ApplyHub(s).tasks| && ApplyHub(s).tasks[t] == s.tasks[t]
  {
    if !s.pc.InfoSpawn? {
      HubStepKeepsTasks(s);
    }
  }

  /** The goroutines started by a step begin at the beginning. */
  lemma Begins(s: State, a: Action)
    requires Enabled(s, a)
    ensures |Apply(s, a).tasks| == |s.tasks| + |Started(s, a)|
    ensures forall i | 0 <= i < |Started(s, a)| ::
              Apply(s, a).tasks[|s.tasks| + i] == TaskAfter(Started(s, a)[i], false, 0)
  {
    if a.HubStep? && !s.pc.InfoSpawn? {
      HubStepKeepsTasks(s);
    }
  }

  lemma HandlerSteps(s: State, a: Action, t: Tid, c: Cid, found: bool, own: seq<Action>)
    requires Enabled(s, a) && OwnStep(a, t) && t < |s.tasks| && Runs(Handler(c), t, found, own, s.tasks[t])
    ensures var found' := found || Finds(s, a, Handler(c), t);
            t < |Apply(s, a).tasks| && Runs(Handler(c), t, found', own + [a], Apply(s, a).tasks[t])
  {
    if |own| < 3 {
      HandlerChecks(s, a, t, c, own);
    } else {
      HandlerGoesOn(s, a, t, c, found, own);
    }
  }

  lemma HandlerChecks(s: State, a: Action, t: Tid, c: Cid, own: seq<Action>)
    requires Enabled(s, a) && OwnStep(a, t) && t < |s.tasks| && Runs(Handler(c), t, false, own, s.tasks[t])
    requires |own| < 3
    ensures var found := Finds(s, a, Handler(c), t);
            t < |Apply(s, a).tasks| && Runs(Handler(c), t, found, own + [a], Apply(s, a).tasks[t])
  {
  }

  lemma HandlerGoesOn(s: State, a: Action, t: Tid, c: Cid, found: bool, own: seq<Action>)
    requires Enabled(s, a) && OwnStep(a, t) && t < |s.tasks| && Runs(Handler(c), t, found, own, s.tasks[t])
    requires |own| >= 3
    ensures !Finds(s, a, Handler(c), t)
    ensures t < |Apply(s, a).tasks| && Runs(Handler(c), t, found, own + [a], Apply(s, a).tasks[t])
  {
    var p := Program(Handler(c), t, found);
    assert s.tasks[t] != Ended && !s.tasks[t].Registering?;
    assert |own| < |p| && a == p[|own|];
  }

  lemma CandidateSteps(s: State, a: Action, t: Tid, c: Cid, found: bool, own: seq<Action>)
    requires Enabled(s, a) && OwnStep(a, t) && t < |s.tasks| && Runs(OnCandidate(c), t, found, own, s.tasks[t])
    ensures var found' := found || Finds(s, a, OnCandidate(c), t);
            t < |Apply(s, a).tasks| && Runs(OnCandidate(c), t, found', own + [a], Apply(s, a).tasks[t])
  {
  }

  lemma OtherSteps(s: State, a: Action, t: Tid, o: Origin, own: seq<Action>)
    requires o.OnStateChange? || o.Carrier?
    requires Enabled(s, a) && OwnStep(a, t) && t < |s.tasks| && Runs(o, t, false, own, s.tasks[t])
    ensures !Finds(s, a, o, t)
    ensures t < |Apply(s, a).tasks| && Runs(o, t, false, own + [a], Apply(s, a).tasks[t])
  {
  }

  lemma OneStep(s: State, a: Action, t: Tid, o: Origin, found: bool, own: seq<Action>)
    requires Enabled(s, a) && OwnStep(a, t) && t < |s.tasks| && Runs(o, t, found, own, s.tasks[t])
    ensures var found' := found || Finds(s, a, o, t);
            t < |Apply(s, a).tasks| && Runs(o, t, found', own + [a], Apply(s, a).tasks[t])
  {
    match o
    case Handler(c) => HandlerSteps(s, a, t, c, found, own);
    case OnCandidate(c) => CandidateSteps(s, a, t, c, found, own);
    case OnStateChange(_) => OtherSteps(s, a, t, o, own);
    case Carrier(_) => OtherSteps(s, a, t, o, own);
  }

  // ---------- every run ----------

  lemma {:induction false} NotYetStarted(acts: seq<Action>, s: State, t: Tid, o: Origin)
    requires Run(INITIAL, acts) == Some(s) && |s.tasks| <= t
    ensures Own(acts, t) == [] && !Found(acts, o, t)
  {
    if acts != [] {
      var init, a := acts[..|acts| - 1], acts[|acts| - 1];
      var u := Run(INITIAL, init).value;
      Begins(u, a);
      NotYetStarted(init, u, t, o);
      assert !OwnStep(a, t);
    }
  }

  lemma {:induction false} OriginsCount(acts: seq<Action>, s: State)
    requires Run(INITIAL, acts) == Some(s)
    ensures |Origins(acts)| == |s.tasks|
  {
    if acts != [] {
      var init, a := acts[..|acts| - 1], acts[|acts| - 1];
      OriginsCount(init, Run(INITIAL, init).value);
      Begins(Run(INITIAL, init).value, a);
    }
  }

  /** Every goroutine runs its program: the steps it has taken part in are the first of those
      its origin and its check prescribe, and its state is where they lead. */
  lemma {:induction false} RunsItsProgram(acts: seq<Action>, s: State, t: Tid)
    requires Run(INITIAL, acts) == Some(s) && t < |s.tasks|
    ensures |Origins(acts)| == |s.tasks|
    ensures var o := Origins(acts)[t]; Runs(o, t, Found(acts, o, t), Own(acts, t), s.tasks[t])
  {
    OriginsCount(acts, s);
    var init, a := acts[..|acts| - 1], acts[|acts| - 1];
    var u := Run(INITIAL, init).value;
    OriginsCount(init, u);
    var o := Origins(acts)[t];
    if t < |u.tasks| {
      RunsItsProgram(init, u, t);
      assert o == Origins(init)[t];
      if OwnStep(a, t) {
        OneStep(u, a, t, o, Found(init, o, t), Own(init, t));
      } else {
        NotOwn(u, a, t);
      }
    } else {
      NotYetStarted(init, u, t, o);
      StartsFresh(u, a, t);
    }
  }

  lemma StartsFresh(u: State, a: Action, t: Tid)
    requires Enabled(u, a) && |u.tasks| <= t < |Apply(u, a).tasks|
    ensures !OwnStep(a, t) && t - |u.tasks| < |Started(u, a)|
    ensures Apply(u, a).tasks[t] == TaskAfter(Started(u, a)[t - |u.tasks|], false, 0)
  {
    Begins(u, a);
    var i := t - |u.tasks|;
    assert Apply(u, a).tasks[|u.tasks| + i] == TaskAfter(Started(u, a)[i], false, 0);
  }

  // ---------- what is sent to whom ----------

  /** The messages of a write loop that are no counts. */
  function Others(taken: seq<Message>): seq<Message> {
    if taken == [] then []
    else
      var last := taken[|taken| - 1];
      Others(taken[..|taken| - 1]) + if last.Info? then [] else [last]
  }

  lemma OthersSnoc(taken: seq<Message>, m: Message)
    ensures Others(taken + [m]) == Others(taken) + if m.Info? then [] else [m]
  {
    assert (taken + [m])[..|taken|] == taken;
  }

  /** What a step sends to `c`, by the origin of the goroutine that sends: its handler the
      offer, a candidate callback a candidate. */
  function SentBy(os: seq<Origin>, a: Action, c: Cid): seq<Message> {
    if a.GuardSend? && a.t < |os| then
      if os[a.t] == Handler(c) then [Offer]
      else if os[a.t] == OnCandidate(c) then [Candidate]
      else []
    else []
  }

  function Sent(acts: seq<Action>, c: Cid): seq<Message> {
    if acts == [] then []
    else
      var init := acts[..|acts| - 1];
      Sent(init, c) + SentBy(Origins(init), acts[|acts| - 1], c)
  }

  /** A guarded send, by a goroutine that runs its program. */
  lemma SendIsByOrigin(s: State, t: Tid, o: Origin, found: bool, own: seq<Action>)
    requires t < |s.tasks| && Runs(o, t, found, own, s.tasks[t]) && GuardAt(s, t, Sends)
    ensures (o.Handler? && s.tasks[t].m == Offer) || (o.OnCandidate? && s.tasks[t].m == Candidate)
    ensures s.tasks[t].c == o.c && found
  {
  }

  lemma MessagesSend(s: State, os: seq<Origin>, t: Tid, found: bool, own: seq<Action>, c: Cid)
    requires Sound(s) && Enabled(s, GuardSend(t)) && c < |s.clients| && |os| == |s.tasks|
    requires Runs(os[t], t, found, own, s.tasks[t])
    ensures c < |Apply(s, GuardSend(t)).clients|
    ensures Others(Apply(s, GuardSend(t)).clients[c].taken) == Others(s.clients[c].taken) + SentBy(os, GuardSend(t), c)
  {
    SendIsByOrigin(s, t, os[t], found, own);
    assert TaskOk(s, s.tasks[t]) && ClientOk(s, s.tasks[t].c);
    OthersSnoc(s.clients[c].taken, s.tasks[t].m);
  }

  lemma MessagesHub(s: State, c: Cid)
    requires HubStepEnabled(s) && c < |s.clients|
    ensures c < |ApplyHub(s).clients| && Others(ApplyHub(s).clients[c].taken) == Others(s.clients[c].taken)
  {
    if s.pc.CastSend? {
      OthersSnoc(s.clients[c].taken, Info(s.pc.n));
    } else {
      HubKeepsTaken(s, c);
    }
  }

  lemma HubKeepsTaken(s: State, c: Cid)
    requires HubStepEnabled(s) && !s.pc.CastSend? && c < |s.clients|
    ensures c < |ApplyHub(s).clients| && ApplyHub(s).clients[c].taken == s.clients[c].taken
  {
    if OnDeletePath(s.pc) {
      DeleteKeepsTaken(s, c);
    }
  }

  lemma DeleteKeepsTaken(s: State, c: Cid)
    requires HubStepEnabled(s) && OnDeletePath(s.pc) && c < |s.clients|
    ensures c < |ApplyDelete(s).clients| && ApplyDelete(s).clients[c].taken == s.clients[c].taken
  {
  }

  lemma MessagesOther(s: State, a: Action, c: Cid)
    requires Enabled(s, a) && !a.GuardSend? && !a.HubStep? && c < |s.clients|
    ensures c < |Apply(s, a).clients| && Apply(s, a).clients[c].taken == s.clients[c].taken
  {
  }

  lemma SendsToAClient(acts: seq<Action>, u: State, t: Tid)
    requires Run(INITIAL, acts) == Some(u) && Enabled(u, GuardSend(t))
    ensures t < |Origins(acts)| && !Origins(acts)[t].Carrier? && Origins(acts)[t].c < |u.clients|
  {
    ReachableIsSound(acts);
    RunsItsProgram(acts, u, t);
    var o := Origins(acts)[t];
    SendIsByOrigin(u, t, o, Found(acts, o, t), Own(acts, t));
    assert TaskOk(u, u.tasks[t]);
  }

  lemma {:induction false} NothingSentBefore(acts: seq<Action>, s: State, c: Cid)
    requires Run(INITIAL, acts) == Some(s) && |s.clients| <= c
    ensures Sent(acts, c) == []
  {
    if acts != [] {
      var init, a := acts[..|acts| - 1], acts[|acts| - 1];
      var u := Run(INITIAL, init).value;
      ClientsOnlyGrow(u, a);
      NothingSentBefore(init, u, c);
      if a.GuardSend? {
        SendsToAClient(init, u, a.t);
      }
    }
  }

  /** The messages handed to a client other than counts are, in order, the offers its handler
      sent and the candidates its callbacks sent, and nothing else. */
  lemma {:induction false} MessagesExactly(acts: seq<Action>, s: State, c: Cid)
    requires Run(INITIAL, acts) == Some(s) && c < |s.clients|
    ensures Others(s.clients[c].taken) == Sent(acts, c)
  {
    var init, a := acts[..|acts| - 1], acts[|acts| - 1];
    var u := Run(INITIAL, init).value;
    if c < |u.clients| {
      MessagesExactly(init, u, c);
      if a.GuardSend? {
        ReachableIsSound(init);
        RunsItsProgram(init, u, a.t);
        MessagesSend(u, Origins(init), a.t, Found(init, Origins(init)[a.t], a.t), Own(init, a.t), c);
      } else if a.HubStep? {
        MessagesHub(u, c);
      } else {
        MessagesOther(u, a, c);
      }
    } else {
      NothingSentBefore(init, u, c);
      NewTakesNothing(u, a, c);
    }
  }

  lemma NewTakesNothing(u: State, a: Action, c: Cid)
    requires Enabled(u, a) && |u.clients| <= c < |Apply(u, a).clients|
    ensures Apply(u, a).clients[c].taken == [] && !a.GuardSend?
  {
    if a.HubStep? {
      HubAddsNoClient(u);
    }
  }

  lemma HubAddsNoClient(u: State)
    requires HubStepEnabled(u)
    ensures |ApplyHub(u).clients| == |u.clients|
  {
  }
}
