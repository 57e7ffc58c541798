/** Who gets which viewer count: the infos handed to a client are exactly the stretch of
    the hub's broadcast log from its insertion to its deletion. */
module HubBroadcast {
  import opened Wrappers
  import opened HubModel
  import opened HubSafety

  /** The counts among the messages a write loop received. */
  function Infos(taken: seq<Message>): seq<nat> {
    if taken == [] then []
    else
      var last := taken[|taken| - 1];
      Infos(taken[..|taken| - 1]) + if last.Info? then [last.count] else []
  }

  lemma InfosSnoc(taken: seq<Message>, m: Message)
    ensures Infos(taken + [m]) == Infos(taken) + if m.Info? then [m.count] else []
  {
    assert (taken + [m])[..|taken|] == taken;
  }

  /** The broadcast in progress has not reached this client yet. */
  predicate Owed(s: State, c: Cid) {
    match s.pc
    case CastRLock(_) => c in s.members
    case Casting(_, todo) => c in todo
    case CastSend(_, d, todo) => c == d || c in todo
    case _ => false
  }

  /** Where in the log a client's stretch ends. */
  function Until(s: State, c: Cid): int
    requires c < |s.clients|
  {
    if s.clients[c].left.Some? then s.clients[c].left.value
    else if Owed(s, c) then |s.log| - 1
    else |s.log|
  }

  predicate CastOk(s: State, c: Cid)
    requires c < |s.clients|
  {
    var cl := s.clients[c];
    if cl.joined.None? then Infos(cl.taken) == []
    else
      && cl.joined.value <= Until(s, c) <= |s.log|
      && Infos(cl.taken) == s.log[cl.joined.value..Until(s, c)]
  }

  predicate CastsOk(s: State) {
    && (forall c: Cid | c < |s.clients| :: CastOk(s, c))
    && CastingLast(s.pc, s.log)
    && (forall t: Tid | t < |s.tasks| && s.tasks[t].Guarded? :: !s.tasks[t].m.Info?)
  }

  lemma CastUntouched(s: State, s': State, c: Cid)
    requires HubUntouched(s, s') && c < |s'.clients|
    requires c < |s.clients| ==> CastOk(s, c) && Infos(s'.clients[c].taken) == Infos(s.clients[c].taken)
    ensures CastOk(s', c)
  {
    if c < |s.clients| {
      assert SameMembership(s.clients[c], s'.clients[c]);
    }
  }

  /** Only the hub hands out infos. */
  lemma OthersHandNoInfo(s: State, a: Action, c: Cid)
    requires CastsOk(s) && Enabled(s, a) && !HubAction(a) && c < |s.clients|
    ensures c < |Apply(s, a).clients| && Infos(Apply(s, a).clients[c].taken) == Infos(s.clients[c].taken)
  {
    if a.GuardSend? {
      InfosSnoc(s.clients[c].taken, s.tasks[a.t].m);
    }
  }

  lemma CastOther(s: State, a: Action, c: Cid)
    requires CastsOk(s) && Enabled(s, a) && !HubAction(a) && c < |Apply(s, a).clients|
    ensures CastOk(Apply(s, a), c)
  {
    OthersLeaveHub(s, a);
    if c < |s.clients| {
      OthersHandNoInfo(s, a, c);
      assert CastOk(s, c);
    }
    CastUntouched(s, Apply(s, a), c);
  }

  lemma CastTake(s: State, a: Action, c: Cid)
    requires LifeOk(s) && CastsOk(s) && Enabled(s, a) && HubAction(a) && !a.HubStep? && c < |s.clients|
    ensures CastOk(Apply(s, a), c)
  {
    assert ClientOk(s, c);
    assert CastOk(s, c);
    var cl, s' := s.clients[c], Apply(s, a);
    if a.TakeBroadcast? && cl.joined.Some? {
      assert s'.log[cl.joined.value..Until(s, c)] == s.log[cl.joined.value..Until(s, c)];
    }
  }

  lemma CastSentTo(s: State)
    requires s.pc.CastSend? && s.pc.c < |s.clients| && !s.clients[s.pc.c].sendClosed && CanSend(s, s.pc.c)
    requires CastingLast(s.pc, s.log) && s.pc.c !in s.pc.todo
    requires CastOk(s, s.pc.c) && s.clients[s.pc.c].joined.Some? && s.clients[s.pc.c].left.None?
    ensures CastOk(ApplyCast(s), s.pc.c)
  {
    var c := s.pc.c;
    var cl, s' := s.clients[c], ApplyCast(s);
    var j, last := cl.joined.value, |s.log| - 1;
    InfosSnoc(cl.taken, Info(s.pc.n));
    assert Until(s, c) == last && Until(s', c) == |s.log|;
    assert s.log[j..|s.log|] == s.log[j..last] + [s.log[last]];
  }

  /** The send to `d`: its stretch grows by the count in progress, the others' stays. */
  lemma CastSent(s: State, c: Cid)
    requires s.pc.CastSend? && s.pc.c < |s.clients| && !s.clients[s.pc.c].sendClosed && CanSend(s, s.pc.c)
    requires CastingLast(s.pc, s.log) && s.pc.c !in s.pc.todo
    requires c < |s.clients| && CastOk(s, c) && (Owed(s, c) ==> s.clients[c].joined.Some? && s.clients[c].left.None?)
    ensures CastOk(ApplyCast(s), c)
  {
    var cl := s.clients[c];
    var s' := ApplyCast(s);
    if c == s.pc.c {
      CastSentTo(s);
    } else {
      assert s'.clients[c] == cl && (Owed(s', c) <==> Owed(s, c));
    }
  }

  lemma CastOpened(s: State, c: Cid)
    requires (s.pc.CastRLock? || s.pc.Casting?) && HubStepEnabled(s) && c < |s.clients| && CastOk(s, c)
    ensures CastOk(ApplyCast(s), c)
  {
    var s' := ApplyCast(s);
    assert s'.clients == s.clients && s'.log == s.log && (Owed(s', c) <==> Owed(s, c));
  }

  lemma CastPath(s: State, c: Cid)
    requires LifeOk(s) && CastsOk(s) && !s.panicked && HubStepEnabled(s) && OnCastPath(s.pc) && c < |s.clients|
    ensures CastOk(ApplyCast(s), c)
  {
    assert ClientOk(s, c);
    assert CastOk(s, c);
    if s.pc.CastSend? {
      assert ClientOk(s, s.pc.c);
      CastSent(s, c);
    } else {
      CastOpened(s, c);
    }
  }

  lemma CastInsert(s: State, c: Cid)
    requires c < |s.clients| && ClientsOk(s) && CastOk(s, c) && HubStepEnabled(s) && OnInsertPath(s.pc)
    ensures CastOk(ApplyInsert(s), c)
  {
    assert ClientOk(s, c);
  }

  lemma CastDelete(s: State, c: Cid)
    requires c < |s.clients| && ClientsOk(s) && CastOk(s, c) && HubStepEnabled(s) && OnDeletePath(s.pc)
    ensures CastOk(ApplyDelete(s), c)
  {
    assert ClientOk(s, c);
  }

  lemma CastStay(s: State, c: Cid)
    requires c < |s.clients| && CastOk(s, c) && HubStepEnabled(s) && (OnInfoPath(s.pc) || OnCheckPath(s.pc))
    ensures CastOk(ApplyHub(s), c)
  {
    var s' := ApplyHub(s);
    assert s'.log == s.log && s'.clients == s.clients && !Owed(s, c) && !Owed(s', c);
  }

  lemma CastHub(s: State, c: Cid)
    requires LifeOk(s) && CastsOk(s) && Enabled(s, HubStep) && c < |s.clients|
    ensures CastOk(ApplyHub(s), c)
  {
    assert CastOk(s, c);
    if OnCastPath(s.pc) {
      CastPath(s, c);
    } else if OnInsertPath(s.pc) {
      CastInsert(s, c);
    } else if OnDeletePath(s.pc) {
      CastDelete(s, c);
    } else {
      CastStay(s, c);
    }
  }

  lemma GuardMessages(s: State, a: Action, t: Tid)
    requires CastsOk(s) && Enabled(s, a) && t < |Apply(s, a).tasks| && Apply(s, a).tasks[t].Guarded?
    ensures !Apply(s, a).tasks[t].m.Info?
  {
    if a.HubStep? {
      HubSpawnsNoGuard(s, t);
    } else if TaskAction(a) {
      assert t != a.t ==> ApplyTask(s, a).tasks[t] == s.tasks[t];
    }
  }

  lemma HubSpawnsNoGuard(s: State, t: Tid)
    requires HubStepEnabled(s) && t < |ApplyHub(s).tasks| && ApplyHub(s).tasks[t].Guarded?
    ensures t < |s.tasks| && ApplyHub(s).tasks[t] == s.tasks[t]
  {
    assert OnInfoPath(s.pc) || ApplyHub(s).tasks == s.tasks;
  }

  lemma CastsStep(s: State, a: Action)
    requires Sound(s) && CastsOk(s) && Enabled(s, a)
    ensures CastsOk(Apply(s, a))
  {
    var s' := Apply(s, a);
    forall c: Cid | c < |s'.clients|
      ensures CastOk(s', c)
    {
      if !HubAction(a) {
        CastOther(s, a, c);
      } else if !a.HubStep? {
        CastTake(s, a, c);
      } else {
        CastHub(s, c);
      }
    }
    forall t: Tid | t < |s'.tasks| && s'.tasks[t].Guarded?
      ensures !s'.tasks[t].m.Info?
    {
      GuardMessages(s, a, t);
    }
    if HubAction(a) {
      InProgressIsLast(s, a);
    } else {
      OthersLeaveHub(s, a);
    }
  }

  predicate CastingLast(pc: HubPc, log: seq<nat>) {
    OnCastPath(pc) ==> log != [] && pc.n == log[|log| - 1]
  }

  lemma InProgressIsLast(s: State, a: Action)
    requires Enabled(s, a) && HubAction(a) && CastingLast(s.pc, s.log)
    ensures CastingLast(Apply(s, a).pc, Apply(s, a).log)
  {
  }

  lemma {:induction false} ReachableCasts(acts: seq<Action>)
    requires Run(INITIAL, acts).Some?
    ensures Sound(Run(INITIAL, acts).value) && CastsOk(Run(INITIAL, acts).value)
  {
    ReachableIsSound(acts);
    if acts != [] {
      ReachableCasts(acts[..|acts| - 1]);
      CastsStep(Run(INITIAL, acts[..|acts| - 1]).value, acts[|acts| - 1]);
    }
  }

  /** Ordered broadcast with exact membership: in every reachable state the infos handed to
      a client, in order and each once, are the hub's broadcasts from the moment it was
      inserted up to its deletion or to now; only a broadcast still in progress may be
      missing. A client never inserted got none. */
  lemma ExactBroadcast(acts: seq<Action>, s: State, c: Cid)
    requires Run(INITIAL, acts) == Some(s) && c < |s.clients|
    ensures var cl := s.clients[c];
            if cl.joined.None? then Infos(cl.taken) == []
            else
              var until := if cl.left.Some? then cl.left.value else if Owed(s, c) then |s.log| - 1 else |s.log|;
              && cl.joined.value <= until <= |s.log|
              && Infos(cl.taken) == s.log[cl.joined.value..until]
  {
    ReachableCasts(acts);
    assert CastOk(s, c);
  }

  lemma InfoAt(s: State, c: Cid, n: nat)
    requires c < |s.clients| && CastOk(s, c) && s.clients[c].joined.Some?
    requires s.clients[c].joined.value <= n < Until(s, c)
    ensures var i := n - s.clients[c].joined.value;
            n < |s.log| && i < |Infos(s.clients[c].taken)| && Infos(s.clients[c].taken)[i] == s.log[n]
  {
  }

  /** Any two clients agree on the order of what they share: the n-th broadcast of the hub
      sits in both of their sequences at the place its number gives. */
  lemma ClientsAgree(acts: seq<Action>, s: State, c: Cid, d: Cid, n: nat)
    requires Run(INITIAL, acts) == Some(s)
    requires c < |s.clients| && d < |s.clients| && s.clients[c].joined.Some? && s.clients[d].joined.Some?
    requires s.clients[c].joined.value <= n < Until(s, c) && s.clients[d].joined.value <= n < Until(s, d)
    ensures var i, j := n - s.clients[c].joined.value, n - s.clients[d].joined.value;
            && i < |Infos(s.clients[c].taken)| && j < |Infos(s.clients[d].taken)|
            && n < |s.log| && Infos(s.clients[c].taken)[i] == s.log[n] == Infos(s.clients[d].taken)[j]
  {
    ReachableCasts(acts);
    InfoAt(s, c, n);
    InfoAt(s, d, n);
  }
}
