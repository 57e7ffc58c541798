/** The FTL codec: cutting a growing byte buffer at the blank-line delimiter and
    classifying each frame by an ordered chain of substring tests. */
module FtlCodec {
  import opened Wrappers
  import opened Text

  const DELIMITER: string := "\r\n\r\n"

  datatype FtlCommand =
    | HMAC
    | Connect(data: map<string, string>)
    | Ping
    | Dot
    | Attribute(data: map<string, string>)
    | Disconnect

  /** What one call of the decoder yields. `Crash` is a panic of the calling task. */
  datatype Decoded =
    | Incomplete
    | Item(command: FtlCommand)
    | Unsupported(text: string)
    | Crash

  datatype Cut = Cut(outcome: Decoded, rest: string)

  /** The ordered tests on the text of one frame. */
  function Classify(text: string): (d: Decoded)
    ensures !d.Incomplete?
  {
    if Contains(text, "HMAC") then Item(HMAC)
    else if Contains(text, "DISCONNECT") then Item(Disconnect)
    else if Contains(text, "CONNECT") then
      var words := Split(text, ' ');
      if |words| < 3 || words[2] == "" then Crash
      else Item(Connect(map["channel_id" := words[1], "stream_key" := words[2][1..]]))
    else if ':' in text then
      var words := Split(text, ':');
      if |words| < 2 then Crash
      else Item(Attribute(map["key" := words[0], "value" := Trim(words[1])]))
    else if '.' in text && |text| == 1 then Item(Dot)
    else if Contains(text, "PING") then Item(Ping)
    else Unsupported(text)
  }

  /** One call of the decoder, as a function of the buffer. */
  function Next(buf: string): (c: Cut)
    ensures c.outcome.Incomplete? <==> Find(buf, DELIMITER).None?
    ensures !c.outcome.Incomplete? ==> |c.rest| < |buf|
  {
    match Find(buf, DELIMITER)
    case None => Cut(Incomplete, buf)
    case Some(i) => Cut(Classify(buf[..i]), buf[i + 4..])
  }

  /** Calling the decoder until it has no further command: the frames cut off, the
      commands they gave, why it stopped and the bytes left in the buffer. */
  datatype Drained = Drained(frames: seq<string>, items: seq<FtlCommand>, stop: Decoded, rest: string)

  function Drain(buf: string): (d: Drained)
    ensures !d.stop.Item? && |d.items| <= |d.frames|
    decreases |buf|
  {
    match Find(buf, DELIMITER)
    case None => Drained([], [], Incomplete, buf)
    case Some(i) =>
      var first := Classify(buf[..i]);
      if first.Item? then
        var d := Drain(buf[i + 4..]);
        Drained([buf[..i]] + d.frames, [first.command] + d.items, d.stop, d.rest)
      else Drained([buf[..i]], [], first, buf[i + 4..])
  }

  /** The bytes sent by the other side, `buf`, as the runtime hands them to the codec. */
  class BytesMut {
    var contents: string

    constructor ()
      ensures contents == ""
    {
      contents := "";
    }

    method Advance(n: nat)
      requires n <= |contents|
      modifies this
      ensures contents == old(contents)[n..]
    {
      contents := contents[n..];
    }

    method Put(bytes: string)
      modifies this
      ensures contents == old(contents) + bytes
    {
      contents := contents + bytes;
    }

    /** Position of the first window of four bytes equal to the delimiter. */
    method DelimiterPosition() returns (at: Option<nat>)
      ensures at == Find(contents, DELIMITER)
    {
      var i := 0;
      while i + 4 <= |contents|
        invariant forall j | 0 <= j < i :: !HasAt(contents, DELIMITER, j)
      {
        if contents[i..i + 4] == DELIMITER {
          FindIs(contents, DELIMITER, i);
          return Some(i);
        }
        i := i + 1;
      }
      return None;
    }
  }

  class FtlCodec {
    var commandBuffer: seq<char>

    constructor ()
      ensures commandBuffer == []
    {
      commandBuffer := [];
    }

    method Reset()
      modifies this
      ensures commandBuffer == []
    {
      commandBuffer := [];
    }

    /** The buffer loses exactly the frame and its delimiter, also when the frame is refused. */
    method Decode(buf: BytesMut) returns (r: Decoded)
      modifies this, buf
      ensures Cut(r, buf.contents) == Next(old(buf.contents))
      ensures commandBuffer == if r.Item? || r.Unsupported? then [] else old(commandBuffer)
    {
      var at := buf.DelimiterPosition();
      if at.None? {
        return Incomplete;
      }
      var command := buf.contents[..at.value];
      buf.Advance(at.value + 4);
      var data: map<string, string> := map[];
      if Contains(command, "HMAC") {
        Reset();
        r := Item(HMAC);
      } else if Contains(command, "DISCONNECT") {
        Reset();
        r := Item(Disconnect);
      } else if Contains(command, "CONNECT") {
        var commands := Split(command, ' ');
        if |commands| < 3 || commands[2] == "" {
          return Crash;
        }
        var key := commands[2][1..];
        data := data["channel_id" := commands[1]];
        data := data["stream_key" := key];
        Reset();
        r := Item(Connect(data));
      } else if ':' in command {
        SplitSeveral(command, ':');
        var commands := Split(command, ':');
        data := data["key" := commands[0]];
        data := data["value" := Trim(commands[1])];
        Reset();
        r := Item(Attribute(data));
      } else if '.' in command && |command| == 1 {
        Reset();
        r := Item(Dot);
      } else if Contains(command, "PING") {
        Reset();
        r := Item(Ping);
      } else {
        Reset();
        r := Unsupported(command);
      }
    }

    method Encode(line: string, buf: BytesMut)
      modifies buf
      ensures buf.contents == old(buf.contents) + line
    {
      buf.Put(line);
    }

    /** The framed reader's loop: decode until nothing more comes out. */
    method DrainLoop(buf: BytesMut) returns (items: seq<FtlCommand>, stop: Decoded)
      modifies this, buf
      ensures var d := Drain(old(buf.contents));
              items == d.items && stop == d.stop && buf.contents == d.rest
    {
      items := [];
      stop := Decode(buf);
      while stop.Item?
        invariant var d, now := Drain(old(buf.contents)), Drain(buf.contents);
                  if stop.Item? then
                    && d.items == items + [stop.command] + now.items
                    && d.stop == now.stop && d.rest == now.rest
                  else d.items == items && d.stop == stop && d.rest == buf.contents
        decreases |buf.contents|, stop.Item?
      {
        items := items + [stop.command];
        stop := Decode(buf);
      }
    }

    /** Bytes arriving in any pieces. After an error the reader is gone and the
        remaining bytes stay where they are. */
    method FeedAll(buf: BytesMut, chunks: seq<string>) returns (items: seq<FtlCommand>, stop: Decoded)
      requires buf.contents == ""
      modifies this, buf
      ensures var d := Drain(Flat(chunks));
              items == d.items && stop == d.stop && buf.contents == d.rest
    {
      items, stop := [], Incomplete;
      for k := 0 to |chunks|
        invariant var d := Drain(Flat(chunks[..k]));
                  items == d.items && stop == d.stop && buf.contents == d.rest
      {
        FlatSnoc(chunks[..k], chunks[k]);
        assert chunks[..k + 1] == chunks[..k] + [chunks[k]];
        DrainExtends(Flat(chunks[..k]), chunks[k]);
        buf.Put(chunks[k]);
        if stop.Incomplete? {
          var more;
          more, stop := DrainLoop(buf);
          items := items + more;
        }
      }
      assert chunks[..|chunks|] == chunks;
    }
  }

  /** Concatenation of pieces. */
  function Flat(pieces: seq<string>): string {
    if pieces == [] then "" else pieces[0] + Flat(pieces[1..])
  }

  lemma {:induction false} FlatSnoc(pieces: seq<string>, last: string)
    ensures Flat(pieces + [last]) == Flat(pieces) + last
  {
    if pieces == [] {
      assert [last][1..] == [];
      assert Flat([last]) == last + "";
    } else {
      FlatSnoc(pieces[1..], last);
      assert (pieces + [last])[1..] == pieces[1..] + [last];
    }
  }

  /** What later bytes do to an already drained buffer. */
  function Extend(d: Drained, more: string): Drained {
    if d.stop.Incomplete? then
      var e := Drain(d.rest + more);
      Drained(d.frames + e.frames, d.items + e.items, e.stop, e.rest)
    else d.(rest := d.rest + more)
  }

  lemma FindInPrefix(a: string, b: string)
    requires Find(a, DELIMITER).Some?
    ensures Find(a + b, DELIMITER) == Find(a, DELIMITER)
  {
    var i := Find(a, DELIMITER).value;
    forall j | 0 <= j <= i
      ensures HasAt(a + b, DELIMITER, j) <==> HasAt(a, DELIMITER, j)
    {
      HasAtPrefix(a, b, DELIMITER, j);
    }
    FindIs(a + b, DELIMITER, i);
  }

  lemma ExtendCons(f: string, c: FtlCommand, d: Drained, more: string)
    ensures Extend(Drained([f] + d.frames, [c] + d.items, d.stop, d.rest), more)
            == var e := Extend(d, more); Drained([f] + e.frames, [c] + e.items, e.stop, e.rest)
  {
    var e := Drain(d.rest + more);
    assert [f] + d.frames + e.frames == [f] + (d.frames + e.frames);
    assert [c] + d.items + e.items == [c] + (d.items + e.items);
  }

  lemma {:induction false} DrainExtends(a: string, b: string)
    ensures Drain(a + b) == Extend(Drain(a), b)
    decreases |a|
  {
    var at := Find(a, DELIMITER);
    if at.None? {
      assert Drain(a) == Drained([], [], Incomplete, a);
    } else {
      var i := at.value;
      FindInPrefix(a, b);
      assert (a + b)[..i] == a[..i] && (a + b)[i + 4..] == a[i + 4..] + b;
      var first := Classify(a[..i]);
      if first.Item? {
        DrainExtends(a[i + 4..], b);
        ExtendCons(a[..i], first.command, Drain(a[i + 4..]), b);
      }
    }
  }

  /** A reader fed piece by piece. */
  function FeedChunks(chunks: seq<string>): Drained {
    if chunks == [] then Drain("")
    else Extend(FeedChunks(chunks[..|chunks| - 1]), chunks[|chunks| - 1])
  }

  /** Chunk independence: any way of cutting the stream into pieces, also inside the
      delimiter, gives the commands, the stop and the leftover of the whole stream. */
  lemma {:induction false} ChunkIndependence(chunks: seq<string>)
    ensures FeedChunks(chunks) == Drain(Flat(chunks))
    decreases |chunks|
  {
    if chunks == [] {
      assert Flat(chunks) == "";
    } else {
      var init, last := chunks[..|chunks| - 1], chunks[|chunks| - 1];
      assert FeedChunks(init + [last]) == Drain(Flat(init + [last])) by {
        ChunkIndependence(init);
        FeedSnoc(init, last);
      }
      assert init + [last] == chunks;
    }
  }

  lemma FeedSnoc(init: seq<string>, last: string)
    requires FeedChunks(init) == Drain(Flat(init))
    ensures FeedChunks(init + [last]) == Drain(Flat(init + [last]))
  {
    FlatSnoc(init, last);
    assert FeedChunks(init + [last]) == Extend(FeedChunks(init), last) by {
      assert (init + [last])[..|init|] == init;
    }
    DrainExtends(Flat(init), last);
  }

  /** The decoder never yields a CONNECT or an attribute without its two fields. */
  lemma DecodedFieldsPresent(text: string)
    ensures var d := Classify(text);
            d.Item? ==>
              && (d.command.Connect? ==> d.command.data.Keys == {"channel_id", "stream_key"})
              && (d.command.Attribute? ==> d.command.data.Keys == {"key", "value"})
  {
  }

  /** A CONNECT frame with no third word or an empty one. */
  predicate ShortConnect(text: string) {
    && Contains(text, "CONNECT") && !Contains(text, "HMAC") && !Contains(text, "DISCONNECT")
    && (|Split(text, ' ')| < 3 || Split(text, ' ')[2] == "")
  }

  /** These are exactly the frames on which the decoder panics. */
  lemma CrashesExactlyOnShortConnect(text: string)
    ensures Classify(text) == Crash <==> ShortConnect(text)
  {
    if ':' in text {
      SplitSeveral(text, ':');
    }
  }
}
