/** Every way the bytes can arrive is a schedule: the results for all schedules do hold for
    every chunking of the input. */
module SessionChunks {
  import opened Wrappers
  import opened Text
  import opened FtlCodec
  import opened Connection
  import opened Session
  import opened SessionProofs
  import opened SessionTheorems

  /** How many bytes each read of a schedule brought. */
  function Reads(acts: seq<Action>): seq<nat> {
    if acts == [] then []
    else (if acts[0].ReadBytes? then [acts[0].n] else []) + Reads(acts[1..])
  }

  lemma {:induction false} ReadsThen(acts: seq<Action>, more: seq<Action>)
    ensures Reads(acts + more) == Reads(acts) + Reads(more)
  {
    if acts == [] {
      assert acts + more == more;
    } else {
      var head := if acts[0].ReadBytes? then [acts[0].n] else [];
      assert (acts + more)[1..] == acts[1..] + more;
      ReadsThen(acts[1..], more);
      assert head + (Reads(acts[1..]) + Reads(more)) == head + Reads(acts[1..]) + Reads(more);
    }
  }

  function Lengths(chunks: seq<string>): seq<nat> {
    if chunks == [] then [] else [|chunks[0]|] + Lengths(chunks[1..])
  }

  /** The frame task waits for bytes. */
  predicate Waits(s: State) {
    s.frame.Reading? && Find(s.buffer, DELIMITER).None?
  }

  /** Alive, and on the way to a transcript that ends by waiting for more input. */
  predicate Alive(env: Env, s: State, goal: Transcript) {
    Shape(s) && !s.frame.FrameDone? && OnTrack(env, s, goal) && goal.ending == AwaitsInput
  }

  lemma AliveSteps(env: Env, s: State, goal: Transcript)
    requires Alive(env, s, goal) && !Waits(s)
    ensures var a := NextStep(s);
            && Enabled(false, s, a) && !a.ReadBytes?
            && Alive(env, Apply(env, false, s, a), goal)
            && Apply(env, false, s, a).unread == s.unread
  {
    var a := NextStep(s);
    assert !MutuallyBlocked(s);
    QuietIsFinished(false, s);
    RefinesStep(env, false, s, a, goal);
    ShapeStep(env, false, s, a);
    StaysAlive(env, s, a, goal);
  }

  lemma StaysAlive(env: Env, s: State, a: Action, goal: Transcript)
    requires Alive(env, s, goal) && !Waits(s) && Enabled(false, s, a) && a == NextStep(s)
    requires Refines(env, Apply(env, false, s, a), goal)
    ensures var t := Apply(env, false, s, a);
            !t.frame.FrameDone? && OnTrack(env, t, goal) && t.unread == s.unread && !a.ReadBytes?
  {
    if s.frame.Reading? {
      DecodeStaysAlive(env, s, goal);
    }
  }

  lemma DecodeStaysAlive(env: Env, s: State, goal: Transcript)
    requires Alive(env, s, goal) && Enabled(false, s, DecodeFrame)
    requires Refines(env, Apply(env, false, s, DecodeFrame), goal)
    ensures !Apply(env, false, s, DecodeFrame).frame.FrameDone?
  {
  }

  /** The tasks do what there is to do without another read. */
  lemma WorksUntilWaiting(env: Env, s: State, goal: Transcript) returns (acts: seq<Action>, t: State)
    requires Alive(env, s, goal)
    ensures Run(env, false, s, acts) == Some(t) && Reads(acts) == []
    ensures Alive(env, t, goal) && Waits(t) && t.unread == s.unread
    decreases Potential(s)
  {
    if Waits(s) {
      acts, t := [], s;
    } else {
      var a := NextStep(s);
      AliveSteps(env, s, goal);
      EveryStepIsProgress(env, false, s, a);
      var rest;
      rest, t := WorksUntilWaiting(env, Apply(env, false, s, a), goal);
      RunCons(env, false, s, a, rest);
      acts := [a] + rest;
    }
  }

  lemma ReadOne(env: Env, s: State, n: nat, goal: Transcript)
    requires Alive(env, s, goal) && Waits(s) && 0 < n <= |s.unread|
    ensures Enabled(false, s, ReadBytes(n))
    ensures Alive(env, Apply(env, false, s, ReadBytes(n)), goal)
  {
    RefinesStep(env, false, s, ReadBytes(n), goal);
  }

  lemma ReadsChunks(env: Env, s: State, chunks: seq<string>, goal: Transcript) returns (acts: seq<Action>, t: State)
    requires Alive(env, s, goal) && Waits(s) && s.unread == Flat(chunks)
    requires forall k | 0 <= k < |chunks| :: chunks[k] != ""
    ensures Run(env, false, s, acts) == Some(t) && Reads(acts) == Lengths(chunks)
    ensures Alive(env, t, goal) && Waits(t) && t.unread == ""
    decreases |chunks|
  {
    if chunks == [] {
      acts, t := [], s;
    } else {
      var a := ReadBytes(|chunks[0]|);
      ReadOne(env, s, |chunks[0]|, goal);
      var u := Apply(env, false, s, a);
      assert u.unread == Flat(chunks[1..]);
      var work, v := WorksUntilWaiting(env, u, goal);
      var rest;
      rest, t := ReadsChunks(env, v, chunks[1..], goal);
      RunThenRun(env, false, u, work, rest);
      RunCons(env, false, s, a, work + rest);
      acts := [a] + (work + rest);
      ReadsThen(work, rest);
      assert acts[1..] == work + rest;
    }
  }

  /** Whatever non-empty chunks the input comes in, some schedule reads exactly those chunks
      and writes all that the loop writes, provided the loop does not stop early. */
  lemma EveryChunkingIsASchedule(env: Env, chunks: seq<string>) returns (acts: seq<Action>, t: State)
    requires forall k | 0 <= k < |chunks| :: chunks[k] != ""
    requires Sequential(env, START, Flat(chunks)).ending == AwaitsInput
    ensures Run(env, false, Initial(Flat(chunks)), acts) == Some(t)
    ensures Reads(acts) == Lengths(chunks)
    ensures t.wire == Sequential(env, START, Flat(chunks)).out
  {
    var s, goal := Initial(Flat(chunks)), Sequential(env, START, Flat(chunks));
    assert s.buffer + s.unread == s.unread;
    assert Find("", DELIMITER).None?;
    acts, t := ReadsChunks(env, s, chunks, goal);
    assert t.buffer + t.unread == t.buffer;
  }
}
