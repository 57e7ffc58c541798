/** The viewer count: a walk of single steps from zero, of which every goroutine that
    carries a count holds one true value, and how often it can be broadcast at all. */
module HubCounts {
  import opened Wrappers
  import opened HubModel
  import opened HubSafety
  import opened HubBroadcast

  function Before(sizes: seq<nat>, i: nat): nat
    requires i <= |sizes|
  {
    if i == 0 then 0 else sizes[i - 1]
  }

  /** Each change of the client map adds one client or takes one away, starting from none. */
  predicate Walk(sizes: seq<nat>) {
    forall i | 0 <= i < |sizes| :: sizes[i] == Before(sizes, i) + 1 || sizes[i] + 1 == Before(sizes, i)
  }

  /** The map has changed and the count has not been handed over yet. */
  predicate InChange(pc: HubPc) {
    pc.InsertUnlock? || OnInfoPath(pc) || pc.RemoveUnlock? || pc.CloseConn? || pc.CloseSend?
  }

  /** How often `what` occurs in a list; `None` counts everything. */
  function Times(ns: seq<nat>, what: Option<nat>): nat {
    if ns == [] then 0 else Times(ns[..|ns| - 1], what) + Flag(Is(ns[|ns| - 1], what))
  }

  predicate Is(n: nat, what: Option<nat>) {
    what.None? || n == what.value
  }

  predicate CarriesCount(task: Task, what: Option<nat>) {
    task.Informing? && Is(task.count, what)
  }

  /** How often `what` is carried by a goroutine that waits for the hub. */
  function Carried(tasks: seq<Task>, what: Option<nat>): nat {
    if tasks == [] then 0 else Carried(tasks[..|tasks| - 1], what) + Flag(CarriesCount(tasks[|tasks| - 1], what))
  }

  lemma TimesSnoc(ns: seq<nat>, n: nat, what: Option<nat>)
    ensures Times(ns + [n], what) == Times(ns, what) + Flag(Is(n, what))
  {
    assert (ns + [n])[..|ns|] == ns;
  }

  lemma {:induction false} TimesAll(ns: seq<nat>)
    ensures Times(ns, None) == |ns|
  {
    if ns != [] {
      TimesAll(ns[..|ns| - 1]);
    }
  }

  lemma {:induction false} TimesFinds(ns: seq<nat>, n: nat)
    ensures Times(ns, Some(n)) > 0 <==> n in ns
  {
    if ns != [] {
      TimesFinds(ns[..|ns| - 1], n);
      assert ns == ns[..|ns| - 1] + [ns[|ns| - 1]];
    }
  }

  lemma CarriedSnoc(tasks: seq<Task>, task: Task, what: Option<nat>)
    ensures Carried(tasks + [task], what) == Carried(tasks, what) + Flag(CarriesCount(task, what))
  {
    assert (tasks + [task])[..|tasks|] == tasks;
  }

  lemma {:induction false} CarriedUpdate(tasks: seq<Task>, t: Tid, task: Task, what: Option<nat>)
    requires t < |tasks|
    ensures Carried(tasks[t := task], what) + Flag(CarriesCount(tasks[t], what)) ==
            Carried(tasks, what) + Flag(CarriesCount(task, what))
  {
    var n := |tasks| - 1;
    if t == n {
      assert tasks[t := task][..n] == tasks[..n];
    } else {
      CarriedUpdate(tasks[..n], t, task, what);
      assert tasks[t := task][..n] == tasks[..n][t := task];
    }
  }

  function Flag(b: bool): nat {
    if b then 1 else 0
  }

  /** How often the clients joined and left. */
  function Changes(clients: seq<Client>): (n: nat)
    ensures n <= 2 * |clients|
  {
    if clients == [] then 0
    else
      var cl := clients[|clients| - 1];
      Changes(clients[..|clients| - 1]) + Flag(cl.joined.Some?) + Flag(cl.left.Some?)
  }

  lemma {:induction false} ChangesUpdate(clients: seq<Client>, c: Cid, cl: Client)
    requires c < |clients|
    ensures Changes(clients[c := cl]) + Flag(clients[c].joined.Some?) + Flag(clients[c].left.Some?) ==
            Changes(clients) + Flag(cl.joined.Some?) + Flag(cl.left.Some?)
  {
    var n := |clients| - 1;
    if c == n {
      assert clients[c := cl][..n] == clients[..n];
    } else {
      ChangesUpdate(clients[..n], c, cl);
      assert clients[c := cl][..n] == clients[..n][c := cl];
    }
  }

  lemma {:induction false} ChangesSame(clients: seq<Client>, others: seq<Client>)
    requires |clients| <= |others|
    requires forall c: Cid | c < |clients| :: SameMembership(clients[c], others[c])
    requires forall c: Cid | |clients| <= c < |others| :: others[c] == NEW_CLIENT
    ensures Changes(others) == Changes(clients)
    decreases |others|
  {
    var n := |others| - 1;
    if n < 0 {
    } else if |clients| == |others| {
      assert SameMembership(clients[n], others[n]);
      ChangesSame(clients[..n], others[..n]);
    } else {
      ChangesSame(clients, others[..n]);
    }
  }

  predicate SizesOk(s: State) {
    && Walk(s.sizes)
    && |s.members| == Before(s.sizes, |s.sizes|)
    && (if InChange(s.pc) then |s.sizes| == |s.snaps| + 1 && s.snaps == s.sizes[..|s.snaps|] else s.snaps == s.sizes)
    && (s.pc.InfoRUnlock? || s.pc.InfoSpawn? ==> s.pc.n == |s.members|)
  }

  predicate CarriedOk(s: State, what: Option<nat>) {
    Times(s.log, what) + Carried(s.tasks, what) == Times(s.snaps, what)
  }

  predicate ChangesOk(s: State) {
    |s.sizes| == Changes(s.clients)
  }

  // ---------- sizes ----------

  lemma WalkSnoc(sizes: seq<nat>, n: nat)
    requires Walk(sizes)
    requires n == Before(sizes, |sizes|) + 1 || n + 1 == Before(sizes, |sizes|)
    ensures Walk(sizes + [n])
  {
    var longer := sizes + [n];
    forall i | 0 <= i < |longer|
      ensures longer[i] == Before(longer, i) + 1 || longer[i] + 1 == Before(longer, i)
    {
      if i < |sizes| {
        assert longer[i] == sizes[i] && Before(longer, i) == Before(sizes, i);
      }
    }
  }

  lemma SizesInsert(s: State)
    requires LifeOk(s) && SizesOk(s) && HubStepEnabled(s) && s.pc.Insert?
    ensures SizesOk(ApplyInsert(s))
  {
    assert ClientOk(s, s.pc.c);
    WalkSnoc(s.sizes, |s.members + {s.pc.c}|);
  }

  lemma SizesRemove(s: State)
    requires LifeOk(s) && SizesOk(s) && HubStepEnabled(s) && s.pc.Remove?
    ensures SizesOk(ApplyDelete(s))
  {
    assert ClientOk(s, s.pc.c);
    assert s.members == s.members - {s.pc.c} + {s.pc.c};
    WalkSnoc(s.sizes, |s.members - {s.pc.c}|);
  }

  lemma LastSize(sizes: seq<nat>, snaps: seq<nat>, n: nat)
    requires |sizes| == |snaps| + 1 && snaps == sizes[..|snaps|] && n == Before(sizes, |sizes|)
    ensures snaps + [n] == sizes
  {
  }

  lemma SizesSpawn(s: State)
    requires SizesOk(s) && s.pc.InfoSpawn?
    ensures SizesOk(ApplyInfo(s))
  {
    LastSize(s.sizes, s.snaps, s.pc.n);
    var s' := ApplyInfo(s);
    assert s'.sizes == s.sizes && s'.members == s.members && s'.pc == Selecting;
  }

  lemma SizesHub(s: State)
    requires LifeOk(s) && SizesOk(s) && Enabled(s, HubStep)
    ensures SizesOk(ApplyHub(s))
  {
    if s.pc.Insert? {
      SizesInsert(s);
    } else if s.pc.Remove? {
      SizesRemove(s);
    } else if s.pc.InfoSpawn? {
      SizesSpawn(s);
    } else {
      SizesHubKeeps(s);
    }
  }

  lemma SizesHubKeeps(s: State)
    requires SizesOk(s) && HubStepEnabled(s) && !s.pc.Insert? && !s.pc.Remove? && !s.pc.InfoSpawn?
    ensures SizesOk(ApplyHub(s))
  {
    HubKeepsSizes(s);
    if OnInsertPath(s.pc) || OnInfoPath(s.pc) {
      assert InChange(ApplyHub(s).pc) <==> InChange(s.pc);
    } else {
      SizesRemoveCast(s);
    }
  }

  lemma HubKeepsSizes(s: State)
    requires HubStepEnabled(s) && !s.pc.Insert? && !s.pc.Remove? && !s.pc.InfoSpawn?
    ensures var s' := ApplyHub(s); s'.sizes == s.sizes && s'.snaps == s.snaps && s'.members == s.members
  {
  }

  lemma SizesRemoveCast(s: State)
    requires HubStepEnabled(s) && !s.pc.Remove? && !OnInsertPath(s.pc) && !OnInfoPath(s.pc)
    ensures var pc := ApplyHub(s).pc; (InChange(pc) <==> InChange(s.pc)) && !pc.InfoRUnlock? && !pc.InfoSpawn?
  {
  }

  lemma SizesTake(s: State, a: Action)
    requires SizesOk(s) && Enabled(s, a) && HubAction(a) && !a.HubStep?
    ensures SizesOk(Apply(s, a))
  {
    var s' := Apply(s, a);
    assert s'.sizes == s.sizes && s'.snaps == s.snaps && s'.members == s.members;
    assert !InChange(s'.pc) && !InChange(s.pc);
  }

  lemma SizesStep(s: State, a: Action)
    requires LifeOk(s) && SizesOk(s) && Enabled(s, a)
    ensures SizesOk(Apply(s, a))
  {
    if !HubAction(a) {
      OthersLeaveHub(s, a);
    } else if a.HubStep? {
      SizesHub(s);
    } else {
      SizesTake(s, a);
    }
  }

  // ---------- carried counts ----------

  /** No count is taken up or dropped by anyone but the hub. */
  lemma CarriedTask(s: State, a: Action, what: Option<nat>)
    requires Enabled(s, a) && TaskAction(a)
    ensures Carried(ApplyTask(s, a).tasks, what) == Carried(s.tasks, what)
  {
    var task := ApplyTask(s, a).tasks[a.t];
    CarriedUpdate(s.tasks, a.t, task, what);
    assert !task.Informing? && !s.tasks[a.t].Informing?;
  }

  lemma CarriedOutside(s: State, a: Action, what: Option<nat>)
    requires Enabled(s, a) && Outside(a)
    ensures Carried(ApplyOutside(s, a).tasks, what) == Carried(s.tasks, what)
  {
    var s' := ApplyOutside(s, a);
    if a.ReadFails? {
      CarriedUpdate(s.tasks, a.t, s'.tasks[a.t], what);
    } else if !a.PingTick? {
      var task := s'.tasks[|s.tasks|];
      assert s'.tasks == s.tasks + [task] && !task.Informing?;
      CarriedSnoc(s.tasks, task, what);
    }
  }

  lemma CarriedTake(s: State, t: Tid, what: Option<nat>)
    requires CarriedOk(s, what) && Enabled(s, TakeBroadcast(t))
    ensures CarriedOk(ApplyHubAction(s, TakeBroadcast(t)), what)
  {
    CarriedUpdate(s.tasks, t, Ended, what);
    TimesSnoc(s.log, s.tasks[t].count, what);
  }

  lemma CarriedSpawn(s: State, what: Option<nat>)
    requires CarriedOk(s, what) && s.pc.InfoSpawn?
    ensures CarriedOk(ApplyInfo(s), what)
  {
    CarriedSnoc(s.tasks, Informing(s.pc.n), what);
    TimesSnoc(s.snaps, s.pc.n, what);
  }

  lemma HubKeepsCounts(s: State, a: Action)
    requires Enabled(s, a) && HubAction(a) && !a.TakeBroadcast? && !(a.HubStep? && s.pc.InfoSpawn?)
    ensures var s' := Apply(s, a); s'.tasks == s.tasks && s'.log == s.log && s'.snaps == s.snaps
  {
    if a.HubStep? {
      HubStepKeepsCounts(s);
    }
  }

  lemma HubStepKeepsCounts(s: State)
    requires HubStepEnabled(s) && !s.pc.InfoSpawn?
    ensures var s' := ApplyHub(s); s'.tasks == s.tasks && s'.log == s.log && s'.snaps == s.snaps
  {
    if OnDeletePath(s.pc) {
      DeleteKeepsCounts(s);
    } else if OnCastPath(s.pc) {
      CastKeepsCounts(s);
    }
  }

  lemma DeleteKeepsCounts(s: State)
    requires HubStepEnabled(s) && OnDeletePath(s.pc)
    ensures var s' := ApplyDelete(s); s'.tasks == s.tasks && s'.log == s.log && s'.snaps == s.snaps
  {
  }

  lemma CastKeepsCounts(s: State)
    requires HubStepEnabled(s) && OnCastPath(s.pc)
    ensures var s' := ApplyCast(s); s'.tasks == s.tasks && s'.log == s.log && s'.snaps == s.snaps
  {
  }

  lemma CarriedHub(s: State, a: Action, what: Option<nat>)
    requires CarriedOk(s, what) && Enabled(s, a) && HubAction(a)
    ensures CarriedOk(Apply(s, a), what)
  {
    if a.TakeBroadcast? {
      CarriedTake(s, a.t, what);
    } else if a.HubStep? && s.pc.InfoSpawn? {
      CarriedSpawn(s, what);
    } else {
      HubKeepsCounts(s, a);
    }
  }

  lemma CarriedStep(s: State, a: Action, what: Option<nat>)
    requires CarriedOk(s, what) && Enabled(s, a)
    ensures CarriedOk(Apply(s, a), what)
  {
    if HubAction(a) {
      CarriedHub(s, a, what);
    } else {
      OthersLeaveHub(s, a);
      if Outside(a) {
        CarriedOutside(s, a, what);
      } else if TaskAction(a) {
        CarriedTask(s, a, what);
      }
    }
  }

  // ---------- changes ----------

  lemma ChangesStep(s: State, a: Action)
    requires LifeOk(s) && ChangesOk(s) && Enabled(s, a)
    ensures ChangesOk(Apply(s, a))
  {
    if !HubAction(a) {
      OthersLeaveHub(s, a);
      ChangesSame(s.clients, Apply(s, a).clients);
    } else if a.HubStep? {
      ChangesHub(s);
    }
  }

  lemma ChangesOne(s: State, c: Cid, cl: Client)
    requires ClientsOk(s) && c < |s.clients| && ChangesOk(s)
    requires Flag(cl.joined.Some?) + Flag(cl.left.Some?) ==
             Flag(s.clients[c].joined.Some?) + Flag(s.clients[c].left.Some?) + 1
    ensures Changes(s.clients[c := cl]) == |s.sizes| + 1
  {
    ChangesUpdate(s.clients, c, cl);
  }

  lemma ChangesHub(s: State)
    requires LifeOk(s) && ChangesOk(s) && Enabled(s, HubStep)
    ensures ChangesOk(ApplyHub(s))
  {
    if s.pc.Insert? {
      assert ClientOk(s, s.pc.c);
      ChangesOne(s, s.pc.c, ApplyInsert(s).clients[s.pc.c]);
    } else if s.pc.Remove? {
      assert ClientOk(s, s.pc.c);
      ChangesOne(s, s.pc.c, ApplyDelete(s).clients[s.pc.c]);
    } else {
      ChangesHubKeeps(s);
    }
  }

  lemma ChangesHubKeeps(s: State)
    requires ChangesOk(s) && HubStepEnabled(s) && !s.pc.Insert? && !s.pc.Remove?
    ensures ChangesOk(ApplyHub(s))
  {
    var s' := ApplyHub(s);
    assert s'.sizes == s.sizes && |s'.clients| == |s.clients|;
    assert forall c: Cid | c < |s.clients| ::
        s'.clients[c].joined == s.clients[c].joined && s'.clients[c].left == s.clients[c].left;
    ChangesOnlyMembership(s.clients, s'.clients);
  }

  lemma {:induction false} ChangesOnlyMembership(clients: seq<Client>, others: seq<Client>)
    requires |clients| == |others|
    requires forall c: Cid | c < |clients| :: others[c].joined == clients[c].joined && others[c].left == clients[c].left
    ensures Changes(others) == Changes(clients)
  {
    if clients != [] {
      var n := |clients| - 1;
      ChangesOnlyMembership(clients[..n], others[..n]);
    }
  }

  // ---------- theorems ----------

  lemma {:induction false} ReachableCounts(acts: seq<Action>, what: Option<nat>)
    requires Run(INITIAL, acts).Some?
    ensures var s := Run(INITIAL, acts).value; Sound(s) && SizesOk(s) && CarriedOk(s, what) && ChangesOk(s)
  {
    ReachableIsSound(acts);
    if acts != [] {
      var init, a := acts[..|acts| - 1], acts[|acts| - 1];
      ReachableCounts(init, what);
      CountsStep(Run(INITIAL, init).value, a, what);
    }
  }

  lemma CountsStep(s: State, a: Action, what: Option<nat>)
    requires Sound(s) && SizesOk(s) && CarriedOk(s, what) && ChangesOk(s) && Enabled(s, a)
    ensures var s' := Apply(s, a); SizesOk(s') && CarriedOk(s', what) && ChangesOk(s')
  {
    SizesStep(s, a);
    CarriedStep(s, a, what);
    ChangesStep(s, a);
  }

  /** Viewer-count conservation: the sizes of the map form a walk of single steps from zero
      that ends at its present size; the counts handed to goroutines are exactly those sizes,
      in order, all but one still being counted; and every count, as often as it was handed
      out, is either still carried or has been broadcast. */
  lemma ViewerCounts(acts: seq<Action>, s: State, n: nat)
    requires Run(INITIAL, acts) == Some(s)
    ensures && Walk(s.sizes)
            && |s.members| == Before(s.sizes, |s.sizes|)
            && (if InChange(s.pc) then |s.sizes| > 0 && s.sizes[..|s.sizes| - 1] == s.snaps else s.sizes == s.snaps)
            && Times(s.log, Some(n)) + Carried(s.tasks, Some(n)) == Times(s.snaps, Some(n))
  {
    ReachableCounts(acts, Some(n));
  }

  /** Every broadcast count was the true size of the map after some change. */
  lemma BroadcastsAreTrue(acts: seq<Action>, s: State, n: nat)
    requires Run(INITIAL, acts) == Some(s) && n in s.log
    ensures n in s.sizes
  {
    ReachableCounts(acts, Some(n));
    TimesFinds(s.log, n);
    TimesFinds(s.snaps, n);
  }

  /** The infos handed to write loops. */
  function Handed(clients: seq<Client>): nat {
    if clients == [] then 0 else Handed(clients[..|clients| - 1]) + |Infos(clients[|clients| - 1].taken)|
  }

  lemma OneMoreTime(n: nat, most: nat)
    ensures n * most + most == (n + 1) * most
  {
  }

  lemma {:induction false} HandedBound(clients: seq<Client>, most: nat)
    requires forall c: Cid | c < |clients| :: |Infos(clients[c].taken)| <= most
    ensures Handed(clients) <= |clients| * most
  {
    if clients != [] {
      var n := |clients| - 1;
      HandedBound(clients[..n], most);
      OneMoreTime(n, most);
    }
  }

  lemma LogBound(acts: seq<Action>)
    requires Run(INITIAL, acts).Some?
    ensures var s := Run(INITIAL, acts).value;
            |s.log| + Carried(s.tasks, None) == |s.snaps| <= |s.sizes| <= 2 * |s.clients|
  {
    var s := Run(INITIAL, acts).value;
    ReachableCounts(acts, None);
    TimesAll(s.log);
    TimesAll(s.snaps);
  }

  lemma InfosBound(s: State, c: Cid)
    requires c < |s.clients| && CastOk(s, c)
    ensures |Infos(s.clients[c].taken)| <= |s.log|
  {
  }

  /** With N clients the hub broadcasts at most 2N times and hands over at most 2N·N infos,
      however the goroutines interleave. */
  lemma BroadcastBound(acts: seq<Action>, s: State, n: nat)
    requires Run(INITIAL, acts) == Some(s) && n == |s.clients|
    ensures |s.log| + Carried(s.tasks, None) <= 2 * n
    ensures Handed(s.clients) <= n * (2 * n)
  {
    LogBound(acts);
    ReachableCasts(acts);
    forall c: Cid | c < n
      ensures |Infos(s.clients[c].taken)| <= 2 * n
    {
      assert CastOk(s, c);
      InfosBound(s, c);
    }
    HandedBound(s.clients, 2 * n);
  }
}
