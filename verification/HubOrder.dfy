/** When the counts are broadcast in the order in which they were taken, and when the last
    one is the current one: exactly. */
module HubOrder {
  import opened Wrappers
  import opened HubModel
  import opened HubSafety
  import opened HubCounts

  /** The counts of the goroutines that wait to hand one to the hub, in their order. */
  function Waiting(tasks: seq<Task>): seq<nat> {
    if tasks == [] then []
    else
      var last := tasks[|tasks| - 1];
      Waiting(tasks[..|tasks| - 1]) + if last.Informing? then [last.count] else []
  }

  lemma WaitingSnoc(tasks: seq<Task>, task: Task)
    ensures Waiting(tasks + [task]) == Waiting(tasks) + if task.Informing? then [task.count] else []
  {
    assert (tasks + [task])[..|tasks|] == tasks;
  }

  /** A task that carries no count before or after plays no part. */
  lemma {:induction false} WaitingSame(tasks: seq<Task>, t: Tid, task: Task)
    requires t < |tasks| && !tasks[t].Informing? && !task.Informing?
    ensures Waiting(tasks[t := task]) == Waiting(tasks)
  {
    var n := |tasks| - 1;
    if t == n {
      assert tasks[t := task][..n] == tasks[..n];
    } else {
      WaitingSame(tasks[..n], t, task);
      assert tasks[t := task][..n] == tasks[..n][t := task];
    }
  }

  /** The place of a carrier among those that wait. */
  function Place(tasks: seq<Task>, t: Tid): nat
    requires t < |tasks|
  {
    |Waiting(tasks[..t])|
  }

  /** Taking a carrier's count takes it out of its place. */
  lemma {:induction false} WaitingTake(tasks: seq<Task>, t: Tid)
    requires t < |tasks| && tasks[t].Informing?
    ensures var w, p := Waiting(tasks), Place(tasks, t);
            && p < |w| && w[p] == tasks[t].count
            && Waiting(tasks[t := Ended]) == w[..p] + w[p + 1..]
  {
    var n := |tasks| - 1;
    if t == n {
      assert tasks[t := Ended][..n] == tasks[..n];
    } else {
      WaitingTake(tasks[..n], t);
      assert tasks[t := Ended][..n] == tasks[..n][t := Ended];
      assert tasks[..n][..t] == tasks[..t];
      var w, p := Waiting(tasks[..n]), Place(tasks, t);
      var last := if tasks[n].Informing? then [tasks[n].count] else [];
      assert (w + last)[..p] + (w + last)[p + 1..] == w[..p] + w[p + 1..] + last;
    }
  }

  /** The counts broadcast and those that wait are, in order, those handed out. */
  predicate Ordered(s: State) {
    s.log + Waiting(s.tasks) == s.snaps
  }

  lemma OrderedTask(s: State, a: Action)
    requires Enabled(s, a) && TaskAction(a)
    ensures Waiting(ApplyTask(s, a).tasks) == Waiting(s.tasks)
  {
    WaitingSame(s.tasks, a.t, ApplyTask(s, a).tasks[a.t]);
  }

  lemma OrderedOutside(s: State, a: Action)
    requires Enabled(s, a) && Outside(a)
    ensures Waiting(ApplyOutside(s, a).tasks) == Waiting(s.tasks)
  {
    var s' := ApplyOutside(s, a);
    if a.ReadFails? {
      WaitingSame(s.tasks, a.t, s'.tasks[a.t]);
    } else if !a.PingTick? {
      WaitingSnoc(s.tasks, s'.tasks[|s.tasks|]);
      assert s'.tasks == s.tasks + [s'.tasks[|s.tasks|]];
    }
  }

  /** No step but taking a count changes the order. */
  lemma OrderedOther(s: State, a: Action)
    requires Enabled(s, a) && !a.TakeBroadcast?
    ensures Ordered(Apply(s, a)) <==> Ordered(s)
  {
    if HubAction(a) {
      OrderedHub(s, a);
    } else {
      OthersLeaveHub(s, a);
      if Outside(a) {
        OrderedOutside(s, a);
      } else if TaskAction(a) {
        OrderedTask(s, a);
      }
    }
  }

  lemma OrderedSpawn(s: State)
    requires s.pc.InfoSpawn?
    ensures Ordered(ApplyInfo(s)) <==> Ordered(s)
  {
    var n := s.pc.n;
    WaitingSnoc(s.tasks, Informing(n));
    var l := s.log + Waiting(s.tasks);
    assert s.log + (Waiting(s.tasks) + [n]) == l + [n];
    assert (l + [n])[..|l|] == l && (s.snaps + [n])[..|s.snaps|] == s.snaps;
  }

  lemma OrderedHub(s: State, a: Action)
    requires Enabled(s, a) && HubAction(a) && !a.TakeBroadcast?
    ensures Ordered(Apply(s, a)) <==> Ordered(s)
  {
    if a.HubStep? && s.pc.InfoSpawn? {
      OrderedSpawn(s);
    } else {
      HubKeepsCounts(s, a);
    }
  }

  /** The hub takes the count of the goroutine that has waited longest. */
  predicate TakesOldest(s: State, a: Action) {
    a.TakeBroadcast? ==> a.t < |s.tasks| && forall u: Tid | u < a.t :: !s.tasks[u].Informing?
  }

  lemma {:induction false} FirstPlace(tasks: seq<Task>, t: Tid)
    requires t <= |tasks|
    ensures |Waiting(tasks[..t])| == 0 <==> forall u: Tid | u < t :: !tasks[u].Informing?
  {
    if t > 0 {
      FirstPlace(tasks, t - 1);
      assert tasks[..t][..t - 1] == tasks[..t - 1];
    }
  }

  lemma NeighboursDiffer(sizes: seq<nat>, snaps: seq<nat>, i: nat)
    requires Walk(sizes) && snaps <= sizes && i + 1 < |snaps|
    ensures snaps[i] != snaps[i + 1]
  {
    assert sizes[i + 1] == Before(sizes, i + 1) + 1 || sizes[i + 1] + 1 == Before(sizes, i + 1);
  }

  /** Where neighbours differ, only the first can move up without a change. */
  lemma OnlyFirstMovesUp(w: seq<nat>, p: nat)
    requires p < |w| && (|w| > 1 ==> w[0] != w[1])
    ensures [w[p]] + (w[..p] + w[p + 1..]) == w <==> p == 0
  {
    var moved := [w[p]] + (w[..p] + w[p + 1..]);
    if p == 0 {
      assert moved == w;
    } else {
      assert moved[1] == w[0];
    }
  }

  lemma SamePrefix(l: seq<nat>, a: seq<nat>, b: seq<nat>)
    ensures l + a == l + b <==> a == b
  {
    assert (l + a)[|l|..] == a && (l + b)[|l|..] == b;
  }

  lemma FirstTwoDiffer(s: State)
    requires SizesOk(s) && Ordered(s)
    ensures var w := Waiting(s.tasks); |w| > 1 ==> w[0] != w[1]
  {
    var w, k := Waiting(s.tasks), |s.log|;
    if |w| > 1 {
      assert s.snaps[k] == w[0] && s.snaps[k + 1] == w[1];
      NeighboursDiffer(s.sizes, s.snaps, k);
    }
  }

  /** Neighbouring counts differ, so taking any but the oldest breaks the order. */
  lemma OrderedTake(s: State, t: Tid)
    requires SizesOk(s) && Ordered(s) && Enabled(s, TakeBroadcast(t))
    ensures Ordered(Apply(s, TakeBroadcast(t))) <==> TakesOldest(s, TakeBroadcast(t))
  {
    var w, p := Waiting(s.tasks), Place(s.tasks, t);
    WaitingTake(s.tasks, t);
    FirstPlace(s.tasks, t);
    FirstTwoDiffer(s);
    OnlyFirstMovesUp(w, p);
    var left := w[..p] + w[p + 1..];
    assert s.log + [w[p]] + left == s.log + ([w[p]] + left);
    SamePrefix(s.log, [w[p]] + left, w);
  }

  /** In every state of the run the counts broadcast and waiting are those handed out, in order. */
  predicate AlwaysOrdered(acts: seq<Action>) {
    var r := Run(INITIAL, acts);
    && r.Some? && Ordered(r.value)
    && (acts != [] ==> AlwaysOrdered(acts[..|acts| - 1]))
  }

  /** In every step of the run the hub takes the oldest count. */
  predicate OldestFirst(acts: seq<Action>) {
    acts != [] ==>
      var init := acts[..|acts| - 1];
      var r := Run(INITIAL, init);
      r.Some? && TakesOldest(r.value, acts[|acts| - 1]) && OldestFirst(init)
  }

  /** Order, exactly: the counts go out in the order in which they were taken, in every
      state of a run, if and only if the hub takes the oldest one every time. */
  lemma {:induction false} OrderedExactly(acts: seq<Action>)
    requires Run(INITIAL, acts).Some?
    ensures AlwaysOrdered(acts) <==> OldestFirst(acts)
  {
    if acts != [] {
      var init, a := acts[..|acts| - 1], acts[|acts| - 1];
      var s := Run(INITIAL, init).value;
      OrderedExactly(init);
      ReachableCounts(init, None);
      if AlwaysOrdered(init) {
        OrderedStep(s, a);
      }
    }
  }

  lemma OrderedStep(s: State, a: Action)
    requires SizesOk(s) && Ordered(s) && Enabled(s, a)
    ensures Ordered(Apply(s, a)) <==> TakesOldest(s, a)
  {
    if a.TakeBroadcast? {
      OrderedTake(s, a.t);
    } else {
      OrderedOther(s, a);
    }
  }

  /** So if it does, then once no count is under way what was broadcast is the whole
      history of sizes, and the last one is the present size. */
  lemma InOrderEndsCurrent(acts: seq<Action>, s: State)
    requires Run(INITIAL, acts) == Some(s) && OldestFirst(acts)
    requires Carried(s.tasks, None) == 0 && !InChange(s.pc)
    ensures s.log == s.sizes
    ensures s.log != [] ==> s.log[|s.log| - 1] == |s.members|
  {
    OrderedExactly(acts);
    ReachableCounts(acts, None);
    NoneWaits(s.tasks);
  }

  lemma {:induction false} NoneWaits(tasks: seq<Task>)
    ensures |Waiting(tasks)| == Carried(tasks, None)
  {
    if tasks != [] {
      NoneWaits(tasks[..|tasks| - 1]);
    }
  }

  /** The last count, exactly: when one count is left to broadcast and no change is in
      progress, it is the present size if and only if that size has been broadcast one time
      less than it was reached. */
  lemma LastIsCurrentExactly(acts: seq<Action>, s: State, t: Tid)
    requires Run(INITIAL, acts) == Some(s) && Enabled(s, TakeBroadcast(t)) && Carried(s.tasks, None) == 1
    ensures s.tasks[t].count == |s.members| <==>
            Times(s.log, Some(|s.members|)) + 1 == Times(s.sizes, Some(|s.members|))
  {
    var n := |s.members|;
    ReachableCounts(acts, Some(n));
    CarriedUpdate(s.tasks, t, Ended, None);
    CarriedUpdate(s.tasks, t, Ended, Some(n));
    CarriedPart(s.tasks[t := Ended], n);
  }

  lemma {:induction false} CarriedPart(tasks: seq<Task>, n: nat)
    ensures Carried(tasks, Some(n)) <= Carried(tasks, None)
  {
    if tasks != [] {
      CarriedPart(tasks[..|tasks| - 1], n);
    }
  }
}
