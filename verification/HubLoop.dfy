/** The branches of the hub's select as code that works in place, each proved against a
    function of the state, and each shown to be what the step system does when the hub is
    not interrupted. */
module HubLoop {
  import opened Wrappers
  import opened HubModel

  const FREE: Lock := Lock(false, {}, false, false)

  /** The hub is at its select and no one holds the lock. */
  predicate AtRest(s: State) {
    !s.panicked && s.pc.Selecting? && s.lock == FREE
  }

  function WithCount(s: State): State {
    s.(snaps := s.snaps + [|s.members|], tasks := s.tasks + [Informing(|s.members|)])
  }

  /** The client at the head of the register channel joins. */
  function Inserted(s: State): State
    requires s.registerChan != [] && s.registerChan[0] < |s.clients|
  {
    var c := s.registerChan[0];
    var members := s.members + {c};
    WithCount(s.(registerChan := s.registerChan[1..], members := members,
                 clients := s.clients[c := s.clients[c].(joined := Some(|s.log|))], sizes := s.sizes + [|members|]))
  }

  /** The client at the head of the unregister channel is deleted and closed, if registered. */
  function Removed(s: State): State
    requires s.unregisterChan != [] && s.unregisterChan[0] < |s.clients|
  {
    var c := s.unregisterChan[0];
    var t := s.(unregisterChan := s.unregisterChan[1..]);
    if c !in s.members then t
    else
      var members := s.members - {c};
      var cl := s.clients[c].(left := Some(|s.log|), connClosed := true, sendClosed := true);
      WithCount(t.(members := members, clients := s.clients[c := cl], sizes := s.sizes + [|members|]))
  }

  function HandedTo(cl: Client, n: nat): Client {
    cl.(writer := Holding(Info(n)), taken := cl.taken + [Info(n)])
  }

  /** Every client of the set gets the count, the others nothing. */
  predicate HandedAll(before: seq<Client>, after: seq<Client>, members: set<Cid>, n: nat) {
    && |after| == |before|
    && forall c: Cid | c < |before| :: after[c] == if c in members then HandedTo(before[c], n) else before[c]
  }

  predicate Receives(cl: Client) {
    cl.writer.Waiting? && !cl.sendClosed
  }

  /** How far a broadcast gets by itself: to every registered client if all receive, else
      to some of those that do, and then to one that does not. */
  predicate Reached(s: State, handed: set<Cid>, blocked: Option<Cid>) {
    && handed <= s.members
    && (forall c | c in handed :: c < |s.clients| && Receives(s.clients[c]))
    && if blocked.None? then handed == s.members
       else
         var c := blocked.value;
         c in s.members && c !in handed && c < |s.clients| && !Receives(s.clients[c])
  }

  class Hub {
    var lock: Lock
    var members: set<Cid>
    var registerChan: seq<Cid>
    var unregisterChan: seq<Cid>
    var clients: seq<Client>
    var tasks: seq<Task>
    var log: seq<nat>
    var sizes: seq<nat>
    var snaps: seq<nat>

    function View(): State
      reads this
    {
      State(Selecting, lock, members, registerChan, unregisterChan, clients, tasks, log, sizes, snaps, false)
    }

    constructor ()
      ensures View() == INITIAL
    {
      lock, members, registerChan, unregisterChan := FREE, {}, [], [];
      clients, tasks, log, sizes, snaps := [], [], [], [], [];
    }

    method RLock()
      requires !lock.pending && !lock.writer && !lock.hubReads
      modifies this`lock
      ensures lock == old(lock).(hubReads := true)
    {
      lock := lock.(hubReads := true);
    }

    method RUnlock()
      requires lock.hubReads
      modifies this`lock
      ensures lock == old(lock).(hubReads := false)
    {
      lock := lock.(hubReads := false);
    }

    method Lock()
      requires lock == FREE
      modifies this`lock
      ensures lock == FREE.(writer := true)
    {
      lock := lock.(writer := true);
    }

    method Unlock()
      requires lock.writer
      modifies this`lock
      ensures lock == old(lock).(writer := false)
    {
      lock := lock.(writer := false);
    }

    /** The client map is read under the read lock and written under the write lock. */
    method Has(c: Cid) returns (found: bool)
      requires lock.hubReads
      ensures found <==> c in members
    {
      found := c in members;
    }

    method Put(c: Cid)
      requires lock.writer && c < |clients|
      modifies this`members, this`clients, this`sizes
      ensures members == old(members) + {c} && sizes == old(sizes) + [|members|]
      ensures clients == old(clients)[c := old(clients)[c].(joined := Some(|log|))]
    {
      members := members + {c};
      clients := clients[c := clients[c].(joined := Some(|log|))];
      sizes := sizes + [|members|];
    }

    method Delete(c: Cid)
      requires lock.writer && c < |clients|
      modifies this`members, this`clients, this`sizes
      ensures members == old(members) - {c} && sizes == old(sizes) + [|members|]
      ensures clients == old(clients)[c := old(clients)[c].(left := Some(|log|))]
    {
      members := members - {c};
      clients := clients[c := clients[c].(left := Some(|log|))];
      sizes := sizes + [|members|];
    }

    /** Closing a closed channel would panic. */
    method CloseClient(c: Cid)
      requires c < |clients| && !clients[c].sendClosed
      modifies this`clients
      ensures clients == old(clients)[c := old(clients)[c].(connClosed := true, sendClosed := true)]
    {
      clients := clients[c := clients[c].(connClosed := true)];
      clients := clients[c := clients[c].(sendClosed := true)];
    }

    method NoClients() returns (n: nat)
      requires lock == FREE
      modifies this`lock
      ensures lock == FREE && n == |members|
    {
      RLock();
      n := |members|;
      RUnlock();
    }

    method GoSendInfo(n: nat)
      modifies this`tasks, this`snaps
      ensures tasks == old(tasks) + [Informing(n)] && snaps == old(snaps) + [n]
    {
      tasks := tasks + [Informing(n)];
      snaps := snaps + [n];
    }

    method OnRegister()
      requires lock == FREE && registerChan != [] && registerChan[0] < |clients|
      modifies this
      ensures View() == Inserted(old(View()))
    {
      var client := registerChan[0];
      registerChan := registerChan[1..];
      Lock();
      Put(client);
      Unlock();
      var n := NoClients();
      GoSendInfo(n);
    }

    /** Deleted under the write lock; the connection and the channel are closed after it. */
    method Drop(c: Cid)
      requires lock == FREE && c < |clients| && !clients[c].sendClosed
      modifies this`lock, this`members, this`clients, this`sizes
      ensures lock == FREE && members == old(members) - {c} && sizes == old(sizes) + [|members|]
      ensures var gone := old(clients)[c].(left := Some(|log|), connClosed := true, sendClosed := true);
              clients == old(clients)[c := gone]
    {
      Lock();
      Delete(c);
      Unlock();
      CloseClient(c);
    }

    method OnUnregister()
      requires lock == FREE && unregisterChan != [] && unregisterChan[0] < |clients|
      requires unregisterChan[0] in members ==> !clients[unregisterChan[0]].sendClosed
      modifies this
      ensures View() == Removed(old(View()))
    {
      var client := unregisterChan[0];
      unregisterChan := unregisterChan[1..];
      RLock();
      var ok := Has(client);
      if ok {
        RUnlock();
        Drop(client);
        var n := NoClients();
        GoSendInfo(n);
      } else {
        RUnlock();
      }
    }

    /** The send returns only if the client's write loop receives. */
    method Send(c: Cid, n: nat) returns (received: bool)
      requires c < |clients| && !clients[c].sendClosed
      modifies this`clients
      ensures received <==> Receives(old(clients)[c])
      ensures clients == if received then old(clients)[c := HandedTo(old(clients)[c], n)] else old(clients)
    {
      received := clients[c].writer.Waiting?;
      if received {
        clients := clients[c := HandedTo(clients[c], n)];
      }
    }

    /** The count carried by goroutine `t` goes to the registered clients, each once and in
        any order, up to the first whose write loop does not receive: there the hub stays,
        with the read lock in its hand. */
    method OnBroadcast(t: Tid) returns (handed: set<Cid>, blocked: Option<Cid>)
      requires !lock.pending && !lock.writer && !lock.hubReads && t < |tasks| && tasks[t].Informing?
      requires forall c | c in members :: c < |clients| && !clients[c].sendClosed
      modifies this
      ensures Reached(old(View()), handed, blocked)
      ensures HandedAll(old(clients), clients, handed, old(tasks)[t].count)
      ensures View() == old(View()).(clients := clients, tasks := old(tasks)[t := Ended],
                                     log := old(log) + [old(tasks)[t].count],
                                     lock := if blocked.None? then old(lock) else old(lock).(hubReads := true))
    {
      var n := tasks[t].count;
      tasks, log := tasks[t := Ended], log + [n];
      RLock();
      handed, blocked := {}, None;
      var todo := members;
      while todo != {}
        invariant handed == members - todo && todo <= members == old(members)
        invariant forall c | c in handed :: Receives(old(clients)[c])
        invariant HandedAll(old(clients), clients, handed, n)
        invariant View() == old(View()).(lock := lock, clients := clients, tasks := old(tasks)[t := Ended],
                                         log := old(log) + [n])
        invariant lock == old(lock).(hubReads := true)
        decreases todo
      {
        var client :| client in todo;
        assert clients[client] == old(clients)[client];
        var received := Send(client, n);
        if !received {
          blocked := Some(client);
          return;
        }
        handed, todo := handed + {client}, todo - {client};
      }
      RUnlock();
    }
  }

  // ---------- the branches are schedules ----------

  lemma StepFrom(start: State, sched: seq<Action>, s: State, a: Action) returns (longer: seq<Action>, s': State)
    requires Run(start, sched) == Some(s) && Enabled(s, a)
    ensures longer == sched + [a] && s' == Apply(s, a) && Run(start, longer) == Some(s')
  {
    longer, s' := sched + [a], Apply(s, a);
    RunSnoc(start, sched, a);
  }

  lemma CountSchedule(start: State, sched: seq<Action>, s: State) returns (longer: seq<Action>)
    requires Run(start, sched) == Some(s) && !s.panicked && s.pc.InfoRLock? && s.lock == FREE
    ensures Run(start, longer) == Some(WithCount(s.(pc := Selecting)))
  {
    var s';
    longer, s' := StepFrom(start, sched, s, HubStep);
    longer, s' := StepFrom(start, longer, s', HubStep);
    longer, s' := StepFrom(start, longer, s', HubStep);
    longer, s' := StepFrom(start, longer, s', HubStep);
  }

  /** Registration, uninterrupted: the steps of the hub's loop compute `Inserted`. */
  lemma InsertedIsASchedule(s: State) returns (sched: seq<Action>)
    requires AtRest(s) && s.registerChan != [] && s.registerChan[0] < |s.clients|
    ensures Run(s, sched) == Some(Inserted(s))
  {
    var s';
    sched, s' := StepFrom(s, [], s, TakeRegister);
    sched, s' := StepFrom(s, sched, s', HubStep);
    sched, s' := StepFrom(s, sched, s', HubStep);
    sched, s' := StepFrom(s, sched, s', HubStep);
    sched, s' := StepFrom(s, sched, s', HubStep);
    sched := CountSchedule(s, sched, s');
  }

  lemma LookSchedule(s: State, c: Cid) returns (sched: seq<Action>)
    requires AtRest(s) && s.unregisterChan != [] && s.unregisterChan[0] == c
    ensures Run(s, sched) == Some(s.(unregisterChan := s.unregisterChan[1..], pc := RemoveCheck(c),
                                     lock := FREE.(hubReads := true)))
  {
    var s';
    sched, s' := StepFrom(s, [], s, TakeUnregister);
    sched, s' := StepFrom(s, sched, s', HubStep);
  }

  lemma CheckSchedule(s: State, c: Cid) returns (sched: seq<Action>)
    requires AtRest(s) && s.unregisterChan != [] && s.unregisterChan[0] == c
    ensures Run(s, sched) == Some(s.(unregisterChan := s.unregisterChan[1..],
                                     pc := if c in s.members then RemoveLock(c) else Selecting))
  {
    var s' := s.(unregisterChan := s.unregisterChan[1..], pc := RemoveCheck(c), lock := FREE.(hubReads := true));
    sched := LookSchedule(s, c);
    sched, s' := StepFrom(s, sched, s', HubStep);
    sched, s' := StepFrom(s, sched, s', HubStep);
  }

  lemma AcquireSchedule(start: State, sched: seq<Action>, s: State, c: Cid) returns (longer: seq<Action>)
    requires Run(start, sched) == Some(s) && !s.panicked && s.pc == RemoveLock(c) && s.lock == FREE
    ensures Run(start, longer) == Some(s.(pc := Remove(c), lock := FREE.(writer := true)))
  {
    var s';
    longer, s' := StepFrom(start, sched, s, HubStep);
    longer, s' := StepFrom(start, longer, s', HubStep);
  }

  lemma DeleteSchedule(start: State, sched: seq<Action>, s: State, c: Cid) returns (longer: seq<Action>, s': State)
    requires Run(start, sched) == Some(s) && !s.panicked && s.pc == RemoveLock(c) && s.lock == FREE && c < |s.clients|
    ensures Run(start, longer) == Some(s')
    ensures s' == s.(pc := CloseConn(c), members := s.members - {c}, sizes := s.sizes + [|s.members - {c}|],
                     clients := s.clients[c := s.clients[c].(left := Some(|s.log|))])
  {
    longer := AcquireSchedule(start, sched, s, c);
    s' := s.(pc := Remove(c), lock := FREE.(writer := true));
    longer, s' := StepFrom(start, longer, s', HubStep);
    longer, s' := StepFrom(start, longer, s', HubStep);
  }

  lemma CloseSchedule(start: State, sched: seq<Action>, s: State, c: Cid) returns (longer: seq<Action>, s': State)
    requires Run(start, sched) == Some(s) && !s.panicked && s.pc == CloseConn(c)
    requires c < |s.clients| && !s.clients[c].sendClosed
    ensures Run(start, longer) == Some(s')
    ensures s' == s.(pc := InfoRLock, clients := s.clients[c := s.clients[c].(connClosed := true, sendClosed := true)])
  {
    longer, s' := StepFrom(start, sched, s, HubStep);
    longer, s' := StepFrom(start, longer, s', HubStep);
  }

  lemma DropSchedule(start: State, sched: seq<Action>, s: State, c: Cid) returns (longer: seq<Action>, s': State)
    requires Run(start, sched) == Some(s) && !s.panicked && s.pc == RemoveLock(c) && s.lock == FREE
    requires c < |s.clients| && !s.clients[c].sendClosed
    ensures Run(start, longer) == Some(s')
    ensures var cl := s.clients[c].(left := Some(|s.log|), connClosed := true, sendClosed := true);
            s' == s.(pc := InfoRLock, members := s.members - {c}, sizes := s.sizes + [|s.members - {c}|],
                     clients := s.clients[c := cl])
  {
    longer, s' := DeleteSchedule(start, sched, s, c);
    longer, s' := CloseSchedule(start, longer, s', c);
  }

  /** Removal, uninterrupted: the steps of the hub's loop compute `Removed`. */
  lemma RemovedIsASchedule(s: State) returns (sched: seq<Action>)
    requires AtRest(s) && s.unregisterChan != [] && s.unregisterChan[0] < |s.clients|
    requires s.unregisterChan[0] in s.members ==> !s.clients[s.unregisterChan[0]].sendClosed
    ensures Run(s, sched) == Some(Removed(s))
  {
    var c := s.unregisterChan[0];
    sched := CheckSchedule(s, c);
    if c in s.members {
      var s';
      sched, s' := DropSchedule(s, sched, s.(unregisterChan := s.unregisterChan[1..], pc := RemoveLock(c)), c);
      sched := CountSchedule(s, sched, s');
    }
  }

  /** What a broadcast leaves to do: the clients of `now` still get the count, then `left` remain. */
  lemma CastSchedule(start: State, sched: seq<Action>, s: State, now: set<Cid>, left: set<Cid>)
    returns (longer: seq<Action>, s': State)
    requires Run(start, sched) == Some(s) && !s.panicked && s.pc.Casting? && s.pc.todo == now + left && now !! left
    requires forall c | c in now :: c < |s.clients| && Receives(s.clients[c])
    ensures Run(start, longer) == Some(s')
    ensures HandedAll(s.clients, s'.clients, now, s.pc.n)
    ensures s' == s.(pc := Casting(s.pc.n, left), clients := s'.clients)
    decreases now
  {
    if now == {} {
      assert now + left == left;
      longer, s' := sched, s;
    } else {
      var c :| c in now;
      var t;
      longer, t := SendSchedule(start, sched, s, c);
      assert t.pc.todo == (now - {c}) + left;
      longer, s' := CastSchedule(start, longer, t, now - {c}, left);
    }
  }

  lemma SendSchedule(start: State, sched: seq<Action>, s: State, c: Cid) returns (longer: seq<Action>, s': State)
    requires Run(start, sched) == Some(s) && !s.panicked && s.pc.Casting? && c in s.pc.todo
    requires c < |s.clients| && Receives(s.clients[c])
    ensures Run(start, longer) == Some(s')
    ensures s' == s.(pc := Casting(s.pc.n, s.pc.todo - {c}), clients := s.clients[c := HandedTo(s.clients[c], s.pc.n)])
  {
    longer, s' := StepFrom(start, sched, s, HubPick(c));
    longer, s' := StepFrom(start, longer, s', HubStep);
  }

  /** Where the hub is after a broadcast by itself: at its select, or in the send that blocks. */
  function CastPc(s: State, n: nat, handed: set<Cid>, blocked: Option<Cid>): HubPc {
    if blocked.None? then Selecting
    else CastSend(n, blocked.value, s.members - handed - {blocked.value})
  }

  lemma OpenCastSchedule(s: State, t: Tid) returns (sched: seq<Action>, s': State)
    requires !s.panicked && s.pc.Selecting? && CanRead(s) && t < |s.tasks| && s.tasks[t].Informing?
    ensures Run(s, sched) == Some(s')
    ensures s' == s.(pc := Casting(s.tasks[t].count, s.members), lock := s.lock.(hubReads := true),
                     tasks := s.tasks[t := Ended], log := s.log + [s.tasks[t].count])
  {
    sched, s' := StepFrom(s, [], s, TakeBroadcast(t));
    sched, s' := StepFrom(s, sched, s', HubStep);
  }

  lemma CloseCastSchedule(start: State, sched: seq<Action>, s: State, blocked: Option<Cid>)
    returns (longer: seq<Action>, s': State)
    requires Run(start, sched) == Some(s) && !s.panicked && s.pc.Casting?
    requires if blocked.None? then s.pc.todo == {} else blocked.value in s.pc.todo
    ensures Run(start, longer) == Some(s')
    ensures s' == if blocked.None? then s.(pc := Selecting, lock := s.lock.(hubReads := false))
                  else s.(pc := CastSend(s.pc.n, blocked.value, s.pc.todo - {blocked.value}))
  {
    longer, s' := StepFrom(start, sched, s, if blocked.None? then HubStep else HubPick(blocked.value));
  }

  /** The rest of a broadcast: to the clients reached, then the end or the send that blocks. */
  lemma ReachSchedule(start: State, sched: seq<Action>, s: State, handed: set<Cid>, blocked: Option<Cid>)
    returns (longer: seq<Action>, s': State)
    requires Run(start, sched) == Some(s) && !s.panicked && s.pc.Casting? && s.pc.todo == s.members
    requires Reached(s, handed, blocked)
    ensures Run(start, longer) == Some(s')
    ensures HandedAll(s.clients, s'.clients, handed, s.pc.n)
    ensures s' == s.(pc := CastPc(s, s.pc.n, handed, blocked), clients := s'.clients,
                     lock := if blocked.None? then s.lock.(hubReads := false) else s.lock)
  {
    var left := s.members - handed;
    assert handed + left == s.members;
    var u;
    longer, u := CastSchedule(start, sched, s, handed, left);
    longer, s' := CloseCastSchedule(start, longer, u, blocked);
  }

  /** A send to a client that does not receive is not possible. */
  lemma BlockedThere(s: State, c: Cid, v: State)
    requires c < |s.clients| && !Receives(s.clients[c]) && !s.clients[c].sendClosed
    requires v.pc.CastSend? && v.pc.c == c && c < |v.clients| && v.clients[c] == s.clients[c]
    ensures !Enabled(v, HubStep)
  {
  }

  /** Broadcasting, by itself: the steps of the hub's loop hand the count to the clients
      reached, and end at the select or in the send to the first that does not receive. */
  lemma BroadcastIsASchedule(s: State, t: Tid, handed: set<Cid>, blocked: Option<Cid>)
    returns (sched: seq<Action>, s': State)
    requires !s.panicked && s.pc.Selecting? && CanRead(s) && !s.lock.hubReads
    requires t < |s.tasks| && s.tasks[t].Informing? && Reached(s, handed, blocked)
    ensures Run(s, sched) == Some(s')
    ensures HandedAll(s.clients, s'.clients, handed, s.tasks[t].count)
    ensures s' == s.(pc := CastPc(s, s.tasks[t].count, handed, blocked), clients := s'.clients,
                     tasks := s.tasks[t := Ended], log := s.log + [s.tasks[t].count],
                     lock := if blocked.None? then s.lock else s.lock.(hubReads := true))
    ensures blocked.Some? && !s.clients[blocked.value].sendClosed ==> !Enabled(s', HubStep)
  {
    var u;
    sched, u := OpenCastSchedule(s, t);
    sched, s' := ReachSchedule(s, sched, u, handed, blocked);
    assert u.lock.(hubReads := false) == s.lock;
    if blocked.Some? && !s.clients[blocked.value].sendClosed {
      BlockedThere(s, blocked.value, s');
    }
  }
}
