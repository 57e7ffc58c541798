/** Two schedules that show what the hub does not promise: without write loops that keep
    receiving it can hang, and the last count it broadcasts need not be the current one. */
module HubWitness {
  import opened Wrappers
  import opened HubModel
  import opened HubLiveness
  import opened HubCounts
  import opened HubLoop

  lemma Take(acts: seq<Action>, s: State, a: Action) returns (acts': seq<Action>, s': State)
    requires Run(INITIAL, acts) == Some(s) && Enabled(s, a)
    ensures s' == Apply(s, a) && Run(INITIAL, acts') == Some(s')
  {
    acts', s' := StepFrom(INITIAL, acts, s, a);
  }

  /** The registration at the head of the channel, in one stretch. */
  lemma TakeInsert(acts: seq<Action>, s: State) returns (acts': seq<Action>, s': State)
    requires Run(INITIAL, acts) == Some(s) && AtRest(s) && s.registerChan != [] && s.registerChan[0] < |s.clients|
    ensures Run(INITIAL, acts') == Some(s') && s' == Inserted(s)
  {
    var more := InsertedIsASchedule(s);
    acts', s' := acts + more, Inserted(s);
    RunThenRun(INITIAL, acts, more);
  }

  /** A handler that has come and gone while the hub was busy elsewhere. */
  const BOTH_QUEUED: State :=
    State(Selecting, FREE, {}, [0], [0], [NEW_CLIENT.(connClosed := true)], [Ended], [], [], [], false)

  lemma ReachEnrolled() returns (acts: seq<Action>)
    ensures Run(INITIAL, acts) ==
            Some(INITIAL.(registerChan := [0], clients := [NEW_CLIENT], tasks := [Guarded(0, Offer, WantsRLock, true)]))
  {
    var s := INITIAL;
    acts := [];
    acts, s := Take(acts, s, Arrive);
    acts, s := Take(acts, s, Enroll(0));
    assert s.clients == [NEW_CLIENT] && s.registerChan == [0] && s.tasks == [Guarded(0, Offer, WantsRLock, true)];
  }

  lemma ReachChecked() returns (acts: seq<Action>)
    ensures Run(INITIAL, acts) ==
            Some(INITIAL.(registerChan := [0], clients := [NEW_CLIENT], tasks := [Guarded(0, Offer, Releases, true)],
                          lock := FREE.(readers := {0})))
  {
    var s := INITIAL.(registerChan := [0], clients := [NEW_CLIENT], tasks := [Guarded(0, Offer, WantsRLock, true)]);
    acts := ReachEnrolled();
    acts, s := Take(acts, s, GuardRLock(0));
    acts, s := Take(acts, s, GuardCheck(0));
    assert s.lock.readers == {0} && s.tasks == [Guarded(0, Offer, Releases, true)];
  }

  /** The offer is skipped: the hub has not taken the registration yet. */
  lemma ReachOfferSkipped() returns (acts: seq<Action>)
    ensures Run(INITIAL, acts) ==
            Some(INITIAL.(registerChan := [0], clients := [NEW_CLIENT], tasks := [ReadingSocket(0)]))
  {
    var s := INITIAL.(registerChan := [0], clients := [NEW_CLIENT], tasks := [Guarded(0, Offer, Releases, true)],
                      lock := FREE.(readers := {0}));
    acts := ReachChecked();
    acts, s := Take(acts, s, GuardRelease(0));
    assert s.lock.readers == {} && s.tasks == [ReadingSocket(0)];
  }

  const LEAVING: State :=
    State(Selecting, FREE, {}, [0], [], [NEW_CLIENT], [Unregistering(0, true)], [], [], [], false)

  lemma ReachLeaving() returns (acts: seq<Action>)
    ensures Run(INITIAL, acts) == Some(LEAVING)
  {
    var s := INITIAL.(registerChan := [0], clients := [NEW_CLIENT], tasks := [ReadingSocket(0)]);
    acts := ReachOfferSkipped();
    acts, s := Take(acts, s, ReadFails(0));
    assert s.tasks == [Unregistering(0, true)];
  }

  const UNREGISTERED: State :=
    State(Selecting, FREE, {}, [0], [0], [NEW_CLIENT], [ClosingConn(0)], [], [], [], false)

  lemma ReachUnregistered() returns (acts: seq<Action>)
    ensures Run(INITIAL, acts) == Some(UNREGISTERED)
  {
    acts := ReachLeaving();
    var s;
    acts, s := Take(acts, LEAVING, EnqueueUnregister(0));
    assert s.tasks == [ClosingConn(0)];
    assert s.unregisterChan == [0];
  }

  lemma ReachBothQueued() returns (acts: seq<Action>)
    ensures Run(INITIAL, acts) == Some(BOTH_QUEUED)
  {
    acts := ReachUnregistered();
    var s;
    acts, s := Take(acts, UNREGISTERED, CloseAfterRead(0));
    assert s.tasks == [Ended];
    assert s.clients == [NEW_CLIENT.(connClosed := true)];
  }

  /** The hub takes the Unregister first: nothing to remove. */
  const MISSED: State := BOTH_QUEUED.(unregisterChan := [])

  lemma ReachLooked() returns (acts: seq<Action>)
    ensures Run(INITIAL, acts) == Some(MISSED.(pc := RemoveCheck(0), lock := FREE.(hubReads := true)))
  {
    acts := ReachBothQueued();
    var s := BOTH_QUEUED;
    acts, s := Take(acts, s, TakeUnregister);
    acts, s := Take(acts, s, HubStep);
  }

  lemma ReachMissed() returns (acts: seq<Action>)
    ensures Run(INITIAL, acts) == Some(MISSED)
  {
    acts := ReachLooked();
    var s := MISSED.(pc := RemoveCheck(0), lock := FREE.(hubReads := true));
    acts, s := Take(acts, s, HubStep);
    acts, s := Take(acts, s, HubStep);
  }

  /** Then it takes the Register: the client is in the map, and no one is left to remove it. */
  const LEFT_BEHIND: State :=
    State(Selecting, FREE, {0}, [], [], [NEW_CLIENT.(connClosed := true, joined := Some(0))],
          [Ended, Informing(1)], [], [1], [1], false)

  lemma InsertedMissed()
    ensures Inserted(MISSED) == LEFT_BEHIND
  {
    var s := Inserted(MISSED);
    assert s.members == {0} && s.sizes == [1] && s.snaps == [1] && s.tasks == [Ended, Informing(1)];
    assert s.clients == LEFT_BEHIND.clients;
  }

  lemma ReachLeftBehind() returns (acts: seq<Action>)
    ensures Run(INITIAL, acts) == Some(LEFT_BEHIND)
  {
    var s;
    acts := ReachMissed();
    acts, s := TakeInsert(acts, MISSED);
    InsertedMissed();
  }

  /** Its write loop fails on the closed connection, and the hub takes the count. */
  const DOOMED: State :=
    State(CastRLock(1), FREE, {0}, [], [],
          [Client(false, true, Returned, [], [Ping], Some(0), None)], [Ended, Ended], [1], [1], [1], false)

  lemma ReachDoomed() returns (acts: seq<Action>)
    ensures Run(INITIAL, acts) == Some(DOOMED)
  {
    acts := ReachLeftBehind();
    var s := LEFT_BEHIND;
    acts, s := Take(acts, s, PingTick(0, false));
    assert s.clients[0].attempted == [Ping];
    assert s.clients == DOOMED.clients;
    acts, s := Take(acts, s, TakeBroadcast(1));
    assert s.tasks == [Ended, Ended] && s.log == [1];
  }

  /** The hub can hang: an Unregister taken before its Register is lost, the client enters
      the map after its handler has gone, its write loop fails on the closed connection, and
      the next broadcast never gets past it; an Unregister that comes later comes too late. */
  lemma HubCanHang() returns (acts: seq<Action>)
    ensures Run(INITIAL, acts).Some?
    ensures var s := Run(INITIAL, acts).value;
            && CastFacing(s, 0)
            && s.registerChan == [] && s.unregisterChan == []
            && forall t: Tid | t < |s.tasks| :: s.tasks[t] == Ended
  {
    acts := ReachDoomed();
    var s := DOOMED;
    acts, s := Take(acts, s, HubStep);
    acts, s := Take(acts, s, HubPick(0));
  }

  /** Two handlers have arrived; the first has sent its registration. */
  const TWO_ARRIVED: State :=
    State(Selecting, FREE, {}, [0], [], [NEW_CLIENT, NEW_CLIENT],
          [Guarded(0, Offer, WantsRLock, true), Registering(1)], [], [], [], false)

  lemma ReachTwoArrived() returns (acts: seq<Action>)
    ensures Run(INITIAL, acts) == Some(TWO_ARRIVED)
  {
    var s;
    s, acts := INITIAL, [];
    acts, s := Take(acts, s, Arrive);
    acts, s := Take(acts, s, Arrive);
    acts, s := Take(acts, s, Enroll(0));
    assert s.clients == [NEW_CLIENT, NEW_CLIENT] && s.registerChan == [0];
    assert s.tasks == [Guarded(0, Offer, WantsRLock, true), Registering(1)];
  }

  const ONE_COUNT: State :=
    State(Selecting, FREE, {0}, [], [], [NEW_CLIENT.(joined := Some(0)), NEW_CLIENT],
          [Guarded(0, Offer, WantsRLock, true), Registering(1), Informing(1)], [], [1], [1], false)

  lemma InsertedFirst()
    ensures Inserted(TWO_ARRIVED) == ONE_COUNT
  {
    var s := Inserted(TWO_ARRIVED);
    assert s.members == {0} && s.sizes == [1] && s.snaps == [1] && s.tasks == ONE_COUNT.tasks;
    assert s.clients == ONE_COUNT.clients;
  }

  const ONE_WAITS: State :=
    State(Selecting, FREE, {0}, [1], [], [NEW_CLIENT.(joined := Some(0)), NEW_CLIENT],
          [Guarded(0, Offer, WantsRLock, true), Guarded(1, Offer, WantsRLock, true), Informing(1)],
          [], [1], [1], false)

  lemma ReachOneWaits() returns (acts: seq<Action>)
    ensures Run(INITIAL, acts) == Some(ONE_WAITS)
  {
    var s;
    acts := ReachTwoArrived();
    acts, s := TakeInsert(acts, TWO_ARRIVED);
    InsertedFirst();
    acts, s := Take(acts, ONE_COUNT, Enroll(1));
    assert s.registerChan == [1] && s.tasks == ONE_WAITS.tasks;
  }

  /** Two clients have joined; neither count has been broadcast yet. */
  lemma ReachTwoCounts() returns (acts: seq<Action>, s: State)
    ensures Run(INITIAL, acts) == Some(s)
    ensures s.pc.Selecting? && s.lock == FREE && !s.panicked && s.members == {0, 1}
    ensures s.registerChan == [] && s.log == [] && |s.tasks| == 4
    ensures s.tasks[2] == Informing(1) && s.tasks[3] == Informing(2) && s.tasks[0].Guarded? && s.tasks[1].Guarded?
    ensures |s.clients| == 2 && forall c: Cid | c < 2 :: s.clients[c] == NEW_CLIENT.(joined := Some(0))
  {
    acts := ReachOneWaits();
    acts, s := TakeInsert(acts, ONE_WAITS);
    assert s.members == {0, 1};
  }

  predicate Ready(cl: Client) {
    cl.writer.Waiting? && !cl.sendClosed && !cl.connClosed
  }

  /** A broadcast to the clients 0 and 1, whose write loops then write it. */
  lemma TakeCast(acts: seq<Action>, s: State, t: Tid) returns (acts': seq<Action>, s': State)
    requires Run(INITIAL, acts) == Some(s) && s.pc.Selecting? && s.lock == FREE && !s.panicked
    requires s.members == {0, 1} && |s.clients| == 2 && t < |s.tasks| && s.tasks[t].Informing?
    requires forall c: Cid | c < 2 :: Ready(s.clients[c])
    ensures Run(INITIAL, acts') == Some(s')
    ensures s'.pc.Selecting? && s'.lock == FREE && !s'.panicked && s'.members == s.members && |s'.clients| == 2
    ensures s'.tasks == s.tasks[t := Ended] && s'.log == s.log + [s.tasks[t].count]
    ensures forall c: Cid | c < 2 :: Ready(s'.clients[c])
  {
    acts', s' := Take(acts, s, TakeBroadcast(t));
    acts', s' := Take(acts', s', HubStep);
    acts', s' := TakeSend(acts', s', 0);
    acts', s' := TakeSend(acts', s', 1);
    assert s'.pc.todo == {};
    acts', s' := Take(acts', s', HubStep);
  }

  lemma TakeSend(acts: seq<Action>, s: State, c: Cid) returns (acts': seq<Action>, s': State)
    requires Run(INITIAL, acts) == Some(s) && !s.panicked && s.pc.Casting? && c in s.pc.todo && c < |s.clients|
    requires s.clients[c].writer.Waiting? && !s.clients[c].sendClosed && !s.clients[c].connClosed
    ensures Run(INITIAL, acts') == Some(s')
    ensures |s'.clients| == |s.clients| && s'.clients[c].writer.Waiting?
    ensures s' == s.(pc := Casting(s.pc.n, s.pc.todo - {c}), clients := s.clients[c := s'.clients[c]])
    ensures !s'.clients[c].sendClosed && !s'.clients[c].connClosed
  {
    acts', s' := Take(acts, s, HubPick(c));
    acts', s' := Take(acts', s', HubStep);
    acts', s' := Take(acts', s', WriterAttempt(c, true));
  }

  /** The last broadcast can be stale: with two clients registered, no count carried or being
      taken, the last count broadcast is one. */
  lemma LastBroadcastCanBeStale() returns (acts: seq<Action>)
    ensures Run(INITIAL, acts).Some?
    ensures var s := Run(INITIAL, acts).value;
            s.pc.Selecting? && Carried(s.tasks, None) == 0 && |s.members| == 2 && s.log == [2, 1]
  {
    var s;
    acts, s := ReachNewestTaken();
    var tasks := s.tasks;
    acts, s := TakeCast(acts, s, 2);
    assert s.tasks == tasks[2 := Ended];
    NothingCarried(s.tasks);
  }

  lemma ReachNewestTaken() returns (acts: seq<Action>, s: State)
    ensures Run(INITIAL, acts) == Some(s)
    ensures s.pc.Selecting? && s.lock == FREE && !s.panicked && s.members == {0, 1} && |s.clients| == 2
    ensures s.log == [2] && |s.tasks| == 4 && s.tasks[2] == Informing(1)
    ensures forall t: Tid | t < 4 && t != 2 :: !s.tasks[t].Informing?
    ensures forall c: Cid | c < 2 :: Ready(s.clients[c])
  {
    var tasks: seq<Task>;
    acts, s, tasks := ReachNewestCast();
    assert s.tasks[0] == tasks[0] && s.tasks[1] == tasks[1];
    assert s.tasks[2] == tasks[2] && s.tasks[3] == Ended;
  }

  lemma ReachNewestCast() returns (acts: seq<Action>, s: State, tasks: seq<Task>)
    ensures Run(INITIAL, acts) == Some(s)
    ensures s.pc.Selecting? && s.lock == FREE && !s.panicked && s.members == {0, 1} && |s.clients| == 2
    ensures |tasks| == 4 && tasks[0].Guarded? && tasks[1].Guarded? && tasks[2] == Informing(1)
    ensures s.log == [2] && s.tasks == tasks[3 := Ended]
    ensures forall c: Cid | c < 2 :: Ready(s.clients[c])
  {
    var u;
    acts, u := ReachTwoCounts();
    tasks := u.tasks;
    acts, s := TakeCast(acts, u, 3);
    assert s.log == [] + [2];
  }

  lemma {:induction false} NothingCarried(tasks: seq<Task>)
    requires forall t: Tid | t < |tasks| :: !tasks[t].Informing?
    ensures Carried(tasks, None) == 0
  {
    if tasks != [] {
      NothingCarried(tasks[..|tasks| - 1]);
    }
  }
}
