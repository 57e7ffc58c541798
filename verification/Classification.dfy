/** What the decoder makes of any frame at all, said of the frame's text alone. */
module Classification {
  import opened Text
  import opened FtlCodec
  import opened RoundTrip

  /** The ASCII white space. */
  const BLANKS := {'\t', '\n', '\U{0B}', '\U{0C}', '\r', ' '}

  predicate AllBlank(s: string) {
    forall k | 0 <= k < |s| :: s[k] in BLANKS
  }

  predicate NoBlankEnds(s: string) {
    s == "" || (s[0] !in BLANKS && s[|s| - 1] !in BLANKS)
  }

  lemma SpacesAreBlanks(c: char)
    ensures IsSpace(c) <==> c in BLANKS
  {
    assert '\t' == 9 as char && '\n' == 10 as char && '\U{0B}' == 11 as char;
    assert '\U{0C}' == 12 as char && '\r' == 13 as char;
  }

  // ---------- trimming ----------

  lemma {:induction false} TrimStartDrops(a: string, s: string)
    requires AllBlank(a) && (s == "" || s[0] !in BLANKS)
    ensures TrimStart(a + s) == s
  {
    if a == "" {
      assert a + s == s;
      if s != "" {
        SpacesAreBlanks(s[0]);
      }
    } else {
      SpacesAreBlanks(a[0]);
      assert (a + s)[1..] == a[1..] + s;
      TrimStartDrops(a[1..], s);
    }
  }

  lemma {:induction false} TrimEndDrops(s: string, b: string)
    requires AllBlank(b) && (s == "" || s[|s| - 1] !in BLANKS)
    ensures TrimEnd(s + b) == s
  {
    if b == "" {
      assert s + b == s;
      if s != "" {
        SpacesAreBlanks(s[|s| - 1]);
      }
    } else {
      var n := |b| - 1;
      SpacesAreBlanks(b[n]);
      assert (s + b)[..|s + b| - 1] == s + b[..n];
      TrimEndDrops(s, b[..n]);
    }
  }

  /** Trimming takes off the white space at both ends, and nothing else. */
  lemma TrimDropsBlankEnds(a: string, s: string, b: string)
    requires AllBlank(a) && NoBlankEnds(s) && AllBlank(b)
    ensures Trim(a + s + b) == s
  {
    if s == "" {
      assert a + s + b == (a + b) + "";
      TrimStartDrops(a + b, "");
    } else {
      assert a + s + b == a + (s + b);
      TrimStartDrops(a, s + b);
      TrimEndDrops(s, b);
    }
  }

  // ---------- every text ----------

  predicate IsConnect(text: string) {
    Contains(text, "CONNECT") && !Contains(text, "HMAC") && !Contains(text, "DISCONNECT")
  }

  /** The kind of every frame, from its text alone: the first test that succeeds decides. */
  lemma KindOfEveryText(text: string)
    ensures var d := Classify(text);
            && (d == Item(HMAC) <==> Contains(text, "HMAC"))
            && (d == Item(Disconnect) <==> Contains(text, "DISCONNECT") && !Contains(text, "HMAC"))
            && (d == Crash || (d.Item? && d.command.Connect?) <==> IsConnect(text))
            && (d.Item? && d.command.Attribute? <==>
                ':' in text && !Contains(text, "HMAC") && !Contains(text, "CONNECT"))
            && (d == Item(Dot) <==> text == ".")
            && (d == Item(Ping) <==>
                Contains(text, "PING") && !Contains(text, "HMAC") && !Contains(text, "CONNECT") && ':' !in text)
            && (d == Unsupported(text) <==>
                && !Contains(text, "HMAC") && !Contains(text, "CONNECT") && !Contains(text, "PING")
                && ':' !in text && text != ".")
            && (d.Unsupported? ==> d == Unsupported(text))
  {
    if Contains(text, "DISCONNECT") {
      DisconnectIsConnect(text);
    }
    if ':' in text {
      SplitSeveral(text, ':');
    }
    if text == "." {
      WordsRead();
      DotIsShort();
    }
    assert |text| == 1 && '.' in text ==> text == ".";
  }

  lemma DotIsShort()
    ensures !Contains(".", "HMAC") && !Contains(".", "CONNECT") && !Contains(".", "PING") && ':' !in "."
  {
    assert forall i :: !HasAt(".", "HMAC", i) && !HasAt(".", "CONNECT", i) && !HasAt(".", "PING", i);
  }

  /** A text up to the next separator or its end. */
  predicate Ends(tail: string, sep: char) {
    tail == "" || tail[0] == sep
  }

  /** The first piece, whatever comes after its separator. */
  lemma FirstPiece(a: string, tail: string, sep: char)
    requires sep !in a && Ends(tail, sep)
    ensures Split(a + tail, sep)[0] == a
  {
    if tail == "" {
      assert a + tail == a;
      SplitWhole(a, sep);
    } else {
      assert a + tail == a + [sep] + tail[1..];
      SplitAt(a, sep, tail[1..]);
    }
  }

  /** What a CONNECT carries: its second word, and its third without the first character;
      an empty third word makes the decoder panic. */
  lemma ConnectFields(text: string, first: string, id: string, third: string, tail: string)
    requires IsConnect(text) && text == first + [' '] + (id + [' '] + (third + tail))
    requires ' ' !in first && ' ' !in id && ' ' !in third && Ends(tail, ' ')
    ensures Classify(text) ==
            if third == "" then Crash
            else Item(Connect(map["channel_id" := id, "stream_key" := third[1..]]))
  {
    ThreeWords(first, id, third + tail);
    FirstPiece(third, tail, ' ');
  }

  lemma ThreeWords(first: string, id: string, rest: string)
    requires ' ' !in first && ' ' !in id
    ensures var words := Split(first + [' '] + (id + [' '] + rest), ' ');
            |words| >= 3 && words[1] == id && words[2] == Split(rest, ' ')[0]
  {
    SplitAt(first, ' ', id + [' '] + rest);
    SplitAt(id, ' ', rest);
    ThirdWord(Split(first + [' '] + (id + [' '] + rest), ' '), first, id, Split(rest, ' '));
  }

  /** A CONNECT of one or two words has no third, and the decoder panics. */
  lemma ConnectTooShort(text: string, first: string, id: string)
    requires IsConnect(text) && (text == first || text == first + [' '] + id)
    requires ' ' !in first && ' ' !in id
    ensures Classify(text) == Crash
  {
    SplitWhole(first, ' ');
    SplitAt(first, ' ', id);
    SplitWhole(id, ' ');
  }

  /** What an attribute carries: everything before the first colon, and what is between it
      and the next, without the white space at its ends. */
  lemma AttributeFields(text: string, key: string, a: string, value: string, b: string, tail: string)
    requires text == key + [':'] + (a + value + b + tail) && !Contains(text, "HMAC") && !Contains(text, "CONNECT")
    requires ':' !in key && ':' !in value && AllBlank(a) && NoBlankEnds(value) && AllBlank(b) && Ends(tail, ':')
    ensures Classify(text) == Item(Attribute(map["key" := key, "value" := value]))
  {
    var middle := a + value + b;
    assert text[|key|] == ':';
    KindOfEveryText(text);
    SplitAt(key, ':', middle + tail);
    NoColon(a, value, b);
    FirstPiece(middle, tail, ':');
    TrimDropsBlankEnds(a, value, b);
    var words := Split(text, ':');
    assert words[0] == key && words[1] == middle;
  }

  lemma NoColon(a: string, value: string, b: string)
    requires AllBlank(a) && ':' !in value && AllBlank(b)
    ensures ':' !in a + value + b
  {
    assert ':' !in BLANKS;
    assert ':' !in a && ':' !in b;
  }

  // ---------- every text has that shape ----------

  lemma Cut(s: string, sep: char) returns (a: string, tail: string)
    ensures s == a + tail && sep !in a && Ends(tail, sep)
  {
    var i := First(s, sep);
    a, tail := s[..i], s[i..];
  }

  /** Every CONNECT is one of the two shapes above. */
  lemma EveryConnectHasWords(text: string) returns (short: bool, first: string, id: string, third: string, tail: string)
    ensures ' ' !in first && ' ' !in id && ' ' !in third && Ends(tail, ' ')
    ensures if short then text == first || text == first + [' '] + id
            else text == first + [' '] + (id + [' '] + (third + tail))
  {
    var rest, more;
    first, rest := Cut(text, ' ');
    short, id, third, tail := true, "", "", "";
    if rest != "" {
      id, more := Cut(rest[1..], ' ');
      assert rest == [' '] + (id + more);
      if more != "" {
        short := false;
        third, tail := Cut(more[1..], ' ');
        assert more == [' '] + (third + tail);
      }
    }
  }

  lemma {:induction false} Blanks(s: string) returns (a: string, value: string, b: string)
    ensures s == a + value + b && AllBlank(a) && NoBlankEnds(value) && AllBlank(b)
  {
    if s == "" {
      a, value, b := "", "", "";
    } else if s[0] in BLANKS {
      a, value, b := Blanks(s[1..]);
      a := [s[0]] + a;
    } else if s[|s| - 1] in BLANKS {
      a, value, b := Blanks(s[..|s| - 1]);
      b := b + [s[|s| - 1]];
    } else {
      a, value, b := "", s, "";
    }
  }

  /** Every text with a colon has the shape of an attribute. */
  lemma EveryAttributeHasFields(text: string) returns (key: string, a: string, value: string, b: string, tail: string)
    requires ':' in text
    ensures text == key + [':'] + (a + value + b + tail)
    ensures ':' !in key && ':' !in value && AllBlank(a) && NoBlankEnds(value) && AllBlank(b) && Ends(tail, ':')
  {
    var rest, middle;
    key, rest := Cut(text, ':');
    assert rest != "" by {
      assert key + "" == key;
    }
    middle, tail := Cut(rest[1..], ':');
    assert rest == [':'] + (middle + tail);
    a, value, b := Blanks(middle);
    assert forall k | 0 <= k < |value| :: value[k] == middle[|a| + k];
  }
}
