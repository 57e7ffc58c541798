/** Where the decoder cuts: the exact framing condition, and the framing of a whole
    stream stated without the decoder. */
module Framing {
  import opened Wrappers
  import opened Text
  import opened FtlCodec

  predicate EndsInCrLf(s: string) {
    |s| >= 2 && s[|s| - 2] == '\r' && s[|s| - 1] == '\n'
  }

  /** The bodies that survive framing: no delimiter inside, and no trailing line break
      (the delimiter's only overlap with itself). */
  predicate Clean(body: string) {
    !Contains(body, DELIMITER) && !EndsInCrLf(body)
  }

  lemma DelimiterOverBoundary(body: string, rest: string, j: nat)
    requires |body| < j + 4 && j < |body|
    ensures HasAt(body + DELIMITER + rest, DELIMITER, j) <==> j + 2 == |body| && EndsInCrLf(body)
  {
    var s := body + DELIMITER + rest;
    assert |DELIMITER| == 4;
    var w := s[j..j + 4];
    assert w == DELIMITER <==> w[0] == '\r' && w[1] == '\n' && w[2] == '\r' && w[3] == '\n';
    assert forall k | 0 <= k < 4 :: w[k] == s[j + k];
    assert s[|body|] == '\r' && s[|body| + 1] == '\n' && s[|body| + 2] == '\r' && s[|body| + 3] == '\n';
  }

  lemma DelimiterBefore(body: string, rest: string, j: nat)
    requires j < |body|
    ensures HasAt(body + DELIMITER + rest, DELIMITER, j) <==>
            HasAt(body, DELIMITER, j) || (j + 2 == |body| && EndsInCrLf(body))
  {
    if j + 4 <= |body| {
      assert body + DELIMITER + rest == body + (DELIMITER + rest);
      HasAtPrefix(body, DELIMITER + rest, DELIMITER, j);
    } else {
      DelimiterOverBoundary(body, rest, j);
    }
  }

  /** Whatever follows, the decoder cuts exactly at the end of `body` if and only if
      `body` holds no delimiter and does not end in a line break. */
  lemma ExactFraming(body: string, rest: string)
    ensures Find(body + DELIMITER + rest, DELIMITER) == Some(|body|) <==> Clean(body)
  {
    var s := body + DELIMITER + rest;
    assert HasAt(s, DELIMITER, |body|) by {
      assert s[|body|..|body| + 4] == DELIMITER;
    }
    forall j: nat | j < |body|
      ensures HasAt(s, DELIMITER, j) <==> HasAt(body, DELIMITER, j) || (j + 2 == |body| && EndsInCrLf(body))
    {
      DelimiterBefore(body, rest, j);
    }
    if Clean(body) {
      FindIs(s, DELIMITER, |body|);
    } else if EndsInCrLf(body) {
      assert HasAt(s, DELIMITER, |body| - 2);
    } else {
      var j :| 0 <= j <= |body| && HasAt(body, DELIMITER, j);
      assert HasAt(s, DELIMITER, j);
    }
  }

  /** Bodies, each followed by the delimiter. */
  function Joined(frames: seq<string>): string {
    if frames == [] then "" else frames[0] + DELIMITER + Joined(frames[1..])
  }

  /** What a framing of `input` is, said without reference to the decoder. */
  predicate IsFraming(input: string, frames: seq<string>, rest: string) {
    && input == Joined(frames) + rest
    && (forall k | 0 <= k < |frames| :: Clean(frames[k]))
  }

  /** The items of a framing when every frame is a command. */
  predicate Classified(frames: seq<string>, items: seq<FtlCommand>) {
    && |items| == |frames|
    && (forall k | 0 <= k < |frames| :: Classify(frames[k]) == Item(items[k]))
  }

  /** The decoder's part of the framing theorem for one frame. */
  lemma CutIsClean(input: string)
    requires Find(input, DELIMITER).Some?
    ensures var i := Find(input, DELIMITER).value;
            Clean(input[..i]) && input == input[..i] + DELIMITER + input[i + 4..]
  {
    var i := Find(input, DELIMITER).value;
    var body, rest := input[..i], input[i + 4..];
    assert input == body + DELIMITER + rest by {
      assert input[i..i + 4] == DELIMITER;
    }
    ExactFraming(body, rest);
  }

  /** Conservation and soundness of a drained buffer: the consumed frames with their
      delimiters, followed by the leftover, are the received bytes; every frame before the
      stop is the command it classifies to, and a leftover waiting for more holds no delimiter. */
  predicate Accounts(input: string, d: Drained)
    requires |d.items| <= |d.frames|
  {
    && IsFraming(input, d.frames, d.rest)
    && Classified(d.frames[..|d.items|], d.items)
    && (d.stop.Incomplete? ==> |d.frames| == |d.items| && !Contains(d.rest, DELIMITER))
    && (!d.stop.Incomplete? ==> |d.frames| == |d.items| + 1 && Classify(d.frames[|d.items|]) == d.stop)
  }

  lemma {:induction false} DrainIsFraming(input: string)
    ensures Accounts(input, Drain(input))
    decreases |input|
  {
    var at := Find(input, DELIMITER);
    if at.None? {
      assert "" + input == input;
    } else {
      var body, tail := input[..at.value], input[at.value + 4..];
      CutIsClean(input);
      if Classify(body).Item? {
        DrainIsFraming(tail);
        DrainCons(body, Classify(body).command, tail);
        AccountsCons(body, Classify(body).command, tail, Drain(tail));
      } else {
        assert Joined([body]) == body + DELIMITER + "";
        assert Joined([body]) + tail == input;
      }
    }
  }

  lemma AccountsCons(body: string, c: FtlCommand, tail: string, d: Drained)
    requires Clean(body) && Classify(body) == Item(c)
    requires |d.items| <= |d.frames| && Accounts(tail, d)
    ensures Accounts(body + DELIMITER + tail, Drained([body] + d.frames, [c] + d.items, d.stop, d.rest))
  {
    var frames := [body] + d.frames;
    assert frames[1..] == d.frames;
    assert body + DELIMITER + Joined(d.frames) + d.rest == body + DELIMITER + tail;
    assert frames[..|d.items| + 1] == [body] + d.frames[..|d.items|];
  }

  lemma FramingTail(input: string, frames: seq<string>, rest: string)
    requires IsFraming(input, frames, rest) && frames != []
    ensures var tail := Joined(frames[1..]) + rest;
            input == frames[0] + DELIMITER + tail && IsFraming(tail, frames[1..], rest)
  {
  }

  /** Completeness: a stream made of clean command frames and an incomplete tail has no
      other reading. */
  lemma {:induction false} FramingIsDrain(input: string, frames: seq<string>, rest: string, items: seq<FtlCommand>)
    requires IsFraming(input, frames, rest) && !Contains(rest, DELIMITER)
    requires Classified(frames, items)
    ensures Drain(input) == Drained(frames, items, Incomplete, rest)
    decreases |frames|
  {
    if frames == [] {
      assert input == rest;
    } else {
      var body, tail := frames[0], Joined(frames[1..]) + rest;
      FramingTail(input, frames, rest);
      FramingIsDrain(tail, frames[1..], rest, items[1..]);
      DrainCons(body, items[0], tail);
      assert frames == [body] + frames[1..] && items == [items[0]] + items[1..];
    }
  }

  lemma DrainCons(body: string, c: FtlCommand, tail: string)
    requires Clean(body) && Classify(body) == Item(c)
    ensures Drain(body + DELIMITER + tail)
            == var d := Drain(tail); Drained([body] + d.frames, [c] + d.items, d.stop, d.rest)
  {
    var s := body + DELIMITER + tail;
    ExactFraming(body, tail);
    assert s[..|body|] == body && s[|body| + 4..] == tail;
  }
}
