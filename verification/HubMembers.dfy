/** Who is in the client map: exactly those clients whose removal the hub has not taken
    while they were in it. An Unregister taken before its Register removes no one. */
module HubMembers {
  import opened Wrappers
  import opened HubModel
  import opened HubSafety
  import opened HubLiveness

  /** The hub takes an Unregister of `c` while `c` is in the map. */
  predicate TakesRemoval(s: State, a: Action, c: Cid) {
    a.TakeUnregister? && s.unregisterChan != [] && s.unregisterChan[0] == c && c in s.members
  }

  /** It has done so at some point of the run. */
  predicate TookRemoval(acts: seq<Action>, c: Cid) {
    acts != [] &&
      var init := acts[..|acts| - 1];
      var r := Run(INITIAL, init);
      TookRemoval(init, c) || (r.Some? && TakesRemoval(r.value, acts[|acts| - 1], c))
  }

  /** The hub is between taking an Unregister of `c` and deleting it. */
  predicate OnRemovalOf(pc: HubPc, c: Cid) {
    pc == RemoveRLock(c) || pc == RemoveCheck(c) || Removing(pc, c)
  }

  /** The client has been deleted or is about to be. */
  predicate Going(s: State, c: Cid)
    requires c < |s.clients|
  {
    s.clients[c].left.Some? || (OnRemovalOf(s.pc, c) && c in s.members)
  }

  // ---------- going ----------

  lemma GoingTake(s: State, a: Action, c: Cid)
    requires LifeOk(s) && Enabled(s, a) && HubAction(a) && !a.HubStep? && c < |s.clients|
    ensures Apply(s, a).clients == s.clients
    ensures Going(Apply(s, a), c) <==> Going(s, c) || TakesRemoval(s, a, c)
  {
    assert Apply(s, a).members == s.members;
    assert !OnRemovalOf(s.pc, c);
  }

  lemma GoingDelete(s: State, c: Cid)
    requires LifeOk(s) && HubStepEnabled(s) && OnDeletePath(s.pc) && c < |s.clients|
    ensures |ApplyDelete(s).clients| == |s.clients| && (Going(ApplyDelete(s), c) <==> Going(s, c))
  {
    if s.pc.Remove? {
      assert ClientOk(s, s.pc.c);
      GoingRemove(s, c);
    } else {
      var s' := ApplyDelete(s);
      assert s'.members == s.members && |s'.clients| == |s.clients| && s'.clients[c].left == s.clients[c].left;
    }
  }

  lemma GoingRemove(s: State, c: Cid)
    requires HubStepEnabled(s) && s.pc.Remove? && PcOk(s) && c < |s.clients| && s.pc.c in s.members
    ensures |ApplyDelete(s).clients| == |s.clients| && (Going(ApplyDelete(s), c) <==> Going(s, c))
  {
  }

  lemma GoingElsewhere(s: State, c: Cid)
    requires HubStepEnabled(s) && !OnDeletePath(s.pc) && c < |s.clients|
    ensures |ApplyHub(s).clients| == |s.clients| && (Going(ApplyHub(s), c) <==> Going(s, c))
  {
    if OnCheckPath(s.pc) {
      GoingCheck(s, c);
    } else if OnCastPath(s.pc) {
      GoingCast(s, c);
    } else if OnInsertPath(s.pc) {
      GoingInsert(s, c);
    } else {
      GoingInfo(s, c);
    }
  }

  lemma GoingCheck(s: State, c: Cid)
    requires HubStepEnabled(s) && OnCheckPath(s.pc) && c < |s.clients|
    ensures ApplyCheck(s).clients == s.clients && (Going(ApplyCheck(s), c) <==> Going(s, c))
  {
  }

  lemma GoingCast(s: State, c: Cid)
    requires HubStepEnabled(s) && OnCastPath(s.pc) && c < |s.clients|
    ensures |ApplyCast(s).clients| == |s.clients| && (Going(ApplyCast(s), c) <==> Going(s, c))
  {
  }

  lemma GoingInsert(s: State, c: Cid)
    requires HubStepEnabled(s) && OnInsertPath(s.pc) && c < |s.clients|
    ensures |ApplyInsert(s).clients| == |s.clients| && (Going(ApplyInsert(s), c) <==> Going(s, c))
  {
    var s' := ApplyInsert(s);
    assert !OnRemovalOf(s'.pc, c) && s'.clients[c].left == s.clients[c].left;
  }

  lemma GoingInfo(s: State, c: Cid)
    requires HubStepEnabled(s) && OnInfoPath(s.pc) && c < |s.clients|
    ensures ApplyInfo(s).clients == s.clients && (Going(ApplyInfo(s), c) <==> Going(s, c))
  {
  }

  lemma GoingOther(s: State, s': State, c: Cid)
    requires HubUntouched(s, s') && c < |s.clients|
    ensures Going(s', c) <==> Going(s, c)
  {
    assert SameMembership(s.clients[c], s'.clients[c]);
  }

  lemma GoingStep(s: State, a: Action, c: Cid)
    requires LifeOk(s) && Enabled(s, a) && c < |s.clients|
    ensures c < |Apply(s, a).clients|
    ensures Going(Apply(s, a), c) <==> Going(s, c) || TakesRemoval(s, a, c)
  {
    if !HubAction(a) {
      OthersLeaveHub(s, a);
      GoingOther(s, Apply(s, a), c);
    } else if !a.HubStep? {
      GoingTake(s, a, c);
    } else {
      GoingHub(s, c);
    }
  }

  lemma GoingHub(s: State, c: Cid)
    requires LifeOk(s) && HubStepEnabled(s) && c < |s.clients|
    ensures c < |ApplyHub(s).clients| && (Going(ApplyHub(s), c) <==> Going(s, c))
  {
    if OnDeletePath(s.pc) {
      GoingDelete(s, c);
    } else {
      GoingElsewhere(s, c);
    }
  }

  // ---------- joining ----------

  /** A client has joined or its registration is on its way. */
  predicate Coming(s: State, c: Cid)
    requires c < |s.clients|
  {
    s.clients[c].joined.Some? || Registering(c) in s.tasks || c in s.registerChan || Inserting(s.pc, c)
  }

  lemma ComingTask(s: State, a: Action, c: Cid)
    requires Enabled(s, a) && TaskAction(a) && c < |s.clients| && Registering(c) in s.tasks
    ensures Registering(c) in ApplyTask(s, a).tasks || c in ApplyTask(s, a).registerChan
  {
    var t: Tid :| t < |s.tasks| && s.tasks[t] == Registering(c);
    var s' := ApplyTask(s, a);
    if a.t != t {
      assert s'.tasks[t] == s.tasks[t];
    } else {
      assert a.Enroll? && s'.registerChan == s.registerChan + [c];
    }
  }

  lemma ComingOutside(s: State, a: Action, c: Cid)
    requires Enabled(s, a) && Outside(a) && Registering(c) in s.tasks
    ensures Registering(c) in ApplyOutside(s, a).tasks
  {
    var t: Tid :| t < |s.tasks| && s.tasks[t] == Registering(c);
    assert ApplyOutside(s, a).tasks[t] == s.tasks[t];
  }

  lemma ComingHub(s: State, c: Cid)
    requires HubStepEnabled(s) && c < |s.clients| && Coming(s, c)
    ensures c < |ApplyHub(s).clients| && Coming(ApplyHub(s), c)
  {
    var s' := ApplyHub(s);
    if Registering(c) in s.tasks {
      var t: Tid :| t < |s.tasks| && s.tasks[t] == Registering(c);
      HubKeepsTasks(s, t);
      assert s'.tasks[t] == Registering(c);
    } else if OnInsertPath(s.pc) {
      assert s'.registerChan == s.registerChan;
    } else {
      assert s'.registerChan == s.registerChan && s'.clients[c].joined == s.clients[c].joined;
    }
  }

  lemma ComingTake(s: State, a: Action, c: Cid)
    requires RangesOk(s) && Enabled(s, a) && HubAction(a) && !a.HubStep? && c < |s.clients| && Coming(s, c)
    ensures c < |Apply(s, a).clients| && Coming(Apply(s, a), c)
  {
    var s' := Apply(s, a);
    if a.TakeRegister? {
      assert s.registerChan == [s.registerChan[0]];
    } else if a.TakeBroadcast? && Registering(c) in s.tasks {
      var t: Tid :| t < |s.tasks| && s.tasks[t] == Registering(c);
      assert s'.tasks[t] == s.tasks[t];
    }
  }

  lemma ComingStep(s: State, a: Action, c: Cid)
    requires LifeOk(s) && Enabled(s, a) && c < |Apply(s, a).clients| && (c < |s.clients| ==> Coming(s, c))
    ensures Coming(Apply(s, a), c)
  {
    var s' := Apply(s, a);
    if a.HubStep? {
      HubKeepsNumber(s);
      ComingHub(s, c);
    } else if HubAction(a) {
      ComingTake(s, a, c);
    } else if c < |s.clients| {
      OthersLeaveHub(s, a);
      assert SameMembership(s.clients[c], s'.clients[c]);
      if Registering(c) in s.tasks {
        if TaskAction(a) {
          ComingTask(s, a, c);
        } else if Outside(a) {
          ComingOutside(s, a, c);
        }
      }
    } else {
      assert a.Arrive? && s'.tasks[|s.tasks|] == Registering(c);
    }
  }

  lemma HubKeepsNumber(s: State)
    requires HubStepEnabled(s)
    ensures |ApplyHub(s).clients| == |s.clients|
  {
  }

  // ---------- every reachable state ----------

  lemma NotYet(s: State, a: Action, c: Cid)
    requires LifeOk(s) && |s.clients| <= c
    ensures !TakesRemoval(s, a, c)
  {
  }

  lemma {:induction false} ReachableMembers(acts: seq<Action>, s: State, c: Cid)
    requires Run(INITIAL, acts) == Some(s)
    ensures c < |s.clients| ==> Coming(s, c) && (Going(s, c) <==> TookRemoval(acts, c))
    ensures |s.clients| <= c ==> !TookRemoval(acts, c)
  {
    if acts != [] {
      var init, a := acts[..|acts| - 1], acts[|acts| - 1];
      var u := Run(INITIAL, init).value;
      ReachableMembers(init, u, c);
      ReachableIsSound(init);
      ClientsOnlyGrow(u, a);
      if c < |s.clients| {
        ComingStep(u, a, c);
      }
      if c < |u.clients| {
        GoingStep(u, a, c);
      } else {
        NotYet(u, a, c);
        if c < |s.clients| {
          NewIsNotGoing(u, a, c);
        }
      }
    }
  }

  lemma NewIsNotGoing(u: State, a: Action, c: Cid)
    requires LifeOk(u) && Enabled(u, a) && |u.clients| <= c < |Apply(u, a).clients|
    ensures !Going(Apply(u, a), c)
  {
    if HubAction(a) {
      HubActionKeepsNumber(u, a);
    } else {
      OthersLeaveHub(u, a);
    }
  }

  lemma HubActionKeepsNumber(u: State, a: Action)
    requires Enabled(u, a) && HubAction(a)
    ensures |Apply(u, a).clients| == |u.clients|
  {
    if a.HubStep? {
      HubKeepsNumber(u);
    }
  }

  /** Removal, exactly: when the hub is not on its way to delete it, a client has been
      deleted if and only if the hub once took an Unregister of it while it was in the map. */
  lemma LeftExactly(acts: seq<Action>, s: State, c: Cid)
    requires Run(INITIAL, acts) == Some(s) && c < |s.clients| && !OnRemovalOf(s.pc, c)
    ensures s.clients[c].left.Some? <==> TookRemoval(acts, c)
  {
    ReachableMembers(acts, s, c);
  }

  /** So with nothing pending, every client that ever arrived has joined, and it is still in
      the map, whether its handler is there or not, if and only if there was no such removal. */
  lemma MembersAtRest(acts: seq<Action>, s: State, c: Cid)
    requires Run(INITIAL, acts) == Some(s) && Idle(s) && c < |s.clients|
    ensures s.clients[c].joined.Some?
    ensures c in s.members <==> !TookRemoval(acts, c)
  {
    ReachableIsSound(acts);
    ReachableMembers(acts, s, c);
    assert ClientOk(s, c);
    forall t: Tid | t < |s.tasks|
      ensures s.tasks[t] != Registering(c)
    {
      assert Quiescent(s.tasks[t]);
    }
  }
}
