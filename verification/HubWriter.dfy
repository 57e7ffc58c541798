/** What one write loop puts on its connection, and in which order. */
module HubWriter {
  import opened Wrappers
  import opened HubModel
  import opened HubSafety

  /** The text messages among the frames a write loop tried to write. */
  function Texts(attempted: seq<Frame>): seq<Message> {
    if attempted == [] then []
    else
      var last := attempted[|attempted| - 1];
      Texts(attempted[..|attempted| - 1]) + if last.Text? then [last.m] else []
  }

  lemma TextsSnoc(attempted: seq<Frame>, f: Frame)
    ensures Texts(attempted + [f]) == Texts(attempted) + if f.Text? then [f.m] else []
  {
    assert (attempted + [f])[..|attempted|] == attempted;
  }

  /** A close frame can only be the last thing attempted, by a loop that has returned
      because its channel was closed. */
  predicate CloseIsLast(cl: Client) {
    CloseFrame in cl.attempted ==>
      && cl.sendClosed && cl.writer.Returned?
      && cl.attempted[|cl.attempted| - 1] == CloseFrame
      && CloseFrame !in cl.attempted[..|cl.attempted| - 1]
  }

  predicate WritesInOrder(cl: Client) {
    && cl.taken == Texts(cl.attempted) + (if cl.writer.Holding? then [cl.writer.m] else [])
    && CloseIsLast(cl)
  }

  /** What can happen to a client as far as its write loop is concerned. */
  predicate WriterMoves(cl: Client, cl': Client) {
    || (cl'.writer == cl.writer && cl'.taken == cl.taken && cl'.attempted == cl.attempted
        && (cl.sendClosed ==> cl'.sendClosed))
    || (cl.writer.Waiting? && cl'.writer.Holding?
        && cl' == cl.(writer := cl'.writer, taken := cl.taken + [cl'.writer.m]))
    || (cl.writer.Holding? && !cl'.writer.Holding? && cl'.sendClosed == cl.sendClosed
        && cl'.taken == cl.taken && cl'.attempted == cl.attempted + [Text(cl.writer.m)])
    || (cl.writer.Waiting? && !cl'.writer.Holding? && cl'.sendClosed == cl.sendClosed
        && cl'.taken == cl.taken && cl'.attempted == cl.attempted + [Ping])
    || (cl.writer.Waiting? && cl.sendClosed && cl'.writer.Returned? && cl'.sendClosed
        && cl'.taken == cl.taken && cl'.attempted == cl.attempted + [CloseFrame])
  }

  lemma MovesTask(s: State, a: Action, c: Cid)
    requires Enabled(s, a) && TaskAction(a) && c < |s.clients|
    ensures WriterMoves(s.clients[c], ApplyTask(s, a).clients[c])
  {
  }

  lemma MovesHub(s: State, c: Cid)
    requires HubStepEnabled(s) && c < |s.clients|
    ensures |ApplyHub(s).clients| == |s.clients| && WriterMoves(s.clients[c], ApplyHub(s).clients[c])
  {
    if OnInsertPath(s.pc) {
      MovesInsert(s, c);
    } else if OnDeletePath(s.pc) {
      MovesDelete(s, c);
    } else if OnCastPath(s.pc) {
      MovesCast(s, c);
    } else {
      assert ApplyHub(s).clients == s.clients;
    }
  }

  lemma MovesInsert(s: State, c: Cid)
    requires HubStepEnabled(s) && OnInsertPath(s.pc) && c < |s.clients|
    ensures |ApplyInsert(s).clients| == |s.clients| && WriterMoves(s.clients[c], ApplyInsert(s).clients[c])
  {
  }

  lemma MovesDelete(s: State, c: Cid)
    requires HubStepEnabled(s) && OnDeletePath(s.pc) && c < |s.clients|
    ensures |ApplyDelete(s).clients| == |s.clients| && WriterMoves(s.clients[c], ApplyDelete(s).clients[c])
  {
  }

  lemma MovesCast(s: State, c: Cid)
    requires HubStepEnabled(s) && OnCastPath(s.pc) && c < |s.clients|
    ensures |ApplyCast(s).clients| == |s.clients| && WriterMoves(s.clients[c], ApplyCast(s).clients[c])
  {
  }

  lemma Moves(s: State, a: Action, c: Cid)
    requires Enabled(s, a) && c < |s.clients|
    ensures c < |Apply(s, a).clients| && WriterMoves(s.clients[c], Apply(s, a).clients[c])
  {
    if TaskAction(a) {
      MovesTask(s, a, c);
    } else if a.HubStep? {
      MovesHub(s, c);
    }
  }

  lemma OrderKept(cl: Client, cl': Client)
    requires WritesInOrder(cl) && WriterMoves(cl, cl')
    ensures WritesInOrder(cl')
  {
    if cl'.attempted != cl.attempted {
      var f := cl'.attempted[|cl'.attempted| - 1];
      TextsSnoc(cl.attempted, f);
      assert cl'.attempted == cl.attempted + [f];
      assert cl'.attempted[..|cl.attempted|] == cl.attempted;
    }
  }

  lemma {:induction false} ReachableWrites(acts: seq<Action>)
    requires Run(INITIAL, acts).Some?
    ensures var s := Run(INITIAL, acts).value; forall c: Cid | c < |s.clients| :: WritesInOrder(s.clients[c])
  {
    if acts != [] {
      var init, a := acts[..|acts| - 1], acts[|acts| - 1];
      ReachableWrites(init);
      var s := Run(INITIAL, init).value;
      var s' := Apply(s, a);
      forall c: Cid | c < |s'.clients|
        ensures WritesInOrder(s'.clients[c])
      {
        if c < |s.clients| {
          Moves(s, a, c);
          OrderKept(s.clients[c], s'.clients[c]);
        } else {
          NewClientIsFresh(s, a, c);
        }
      }
    }
  }

  lemma NewClientIsFresh(s: State, a: Action, c: Cid)
    requires Enabled(s, a) && |s.clients| <= c < |Apply(s, a).clients|
    ensures Apply(s, a).clients[c] == NEW_CLIENT
  {
    if !HubAction(a) {
      OthersLeaveHub(s, a);
    }
  }

  /** Writer order: the text messages a write loop attempts are the messages handed to it,
      in order and with none skipped (but for one it still holds); a close frame is
      attempted at most once, only after the hub closed the channel, and nothing after it,
      as section 5.5.1 of RFC 6455 asks. */
  lemma WriterOrder(acts: seq<Action>, s: State, c: Cid)
    requires Run(INITIAL, acts) == Some(s) && c < |s.clients|
    ensures var cl := s.clients[c];
            && Texts(cl.attempted) <= cl.taken
            && |cl.taken| <= |Texts(cl.attempted)| + 1
            && (|cl.taken| > |Texts(cl.attempted)| <==> cl.writer.Holding?)
            && (forall i | 0 <= i < |cl.attempted| && cl.attempted[i] == CloseFrame ::
                  i == |cl.attempted| - 1 && cl.sendClosed && cl.writer.Returned?)
  {
    ReachableWrites(acts);
    var cl := s.clients[c];
    assert WritesInOrder(cl);
    if CloseFrame in cl.attempted {
      var init := cl.attempted[..|cl.attempted| - 1];
      assert forall i | 0 <= i < |init| :: init[i] == cl.attempted[i] && init[i] in init;
    }
  }
}
