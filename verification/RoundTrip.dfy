/** Printing FTL commands the way a client sends them, and reading them back. */
module RoundTrip {
  import opened Text
  import opened FtlCodec
  import opened Framing

  function ConnectText(id: string, hash: string): string {
    "CONNECT" + [' '] + (id + [' '] + ("" + ['$'] + hash))
  }

  function AttributeText(key: string, value: string): string {
    key + [':'] + ("" + [' '] + value)
  }

  function Print(c: FtlCommand): string {
    match c
    case HMAC => "HMAC"
    case Ping => "PING"
    case Dot => "."
    case Disconnect => "DISCONNECT"
    case Connect(data) =>
      if "channel_id" in data && "stream_key" in data then ConnectText(data["channel_id"], data["stream_key"]) else ""
    case Attribute(data) =>
      if "key" in data && "value" in data then AttributeText(data["key"], data["value"]) else ""
  }

  predicate Free(s: string, token: string) {
    !Contains(s, token)
  }

  predicate SendableConnect(id: string, hash: string) {
    && ' ' !in id && ' ' !in hash
    && Free(id, "HMAC") && Free(hash, "HMAC")
    && Free(id, "DISCONNECT") && Free(hash, "DISCONNECT")
    && Free(id, DELIMITER) && Free(hash, DELIMITER) && !EndsInCrLf(hash)
  }

  predicate SendableAttribute(key: string, value: string) {
    && ':' !in key && ':' !in value && Trimmed(value)
    && Free(key, "HMAC") && Free(value, "HMAC")
    && Free(key, "CONNECT") && Free(value, "CONNECT")
    && Free(key, DELIMITER) && Free(value, DELIMITER)
  }

  /** The commands that survive being printed and read back: a condition on their fields only. */
  predicate Sendable(c: FtlCommand) {
    match c
    case Connect(data) =>
      data.Keys == {"channel_id", "stream_key"} && SendableConnect(data["channel_id"], data["stream_key"])
    case Attribute(data) => data.Keys == {"key", "value"} && SendableAttribute(data["key"], data["value"])
    case _ => true
  }

  lemma InConnectText(id: string, hash: string, t: string)
    requires ' ' !in t && '$' !in t && t != ""
    ensures Contains(ConnectText(id, hash), t) <==> Contains("CONNECT", t) || Contains(id, t) || Contains(hash, t)
  {
    var tail := "" + ['$'] + hash;
    ContainsAcross("CONNECT", ' ', id + [' '] + tail, t);
    ContainsAcross(id, ' ', tail, t);
    ContainsAcross("", '$', hash, t);
  }

  lemma InAttributeText(key: string, value: string, t: string)
    requires ' ' !in t && ':' !in t && t != ""
    ensures Contains(AttributeText(key, value), t) <==> Contains(key, t) || Contains(value, t)
  {
    ContainsAcross(key, ':', "" + [' '] + value, t);
    ContainsAcross("", ' ', value, t);
  }

  /** DISCONNECT contains CONNECT. */
  lemma DisconnectIsConnect(s: string)
    requires Contains(s, "DISCONNECT")
    ensures Contains(s, "CONNECT")
  {
    var i :| 0 <= i <= |s| && HasAt(s, "DISCONNECT", i);
    assert "DISCONNECT"[3..] == "CONNECT";
    assert s[i + 3..i + 10] == s[i..i + 10][3..];
    assert HasAt(s, "CONNECT", i + 3);
  }

  lemma ConnectTokens()
    ensures !Contains("CONNECT", "HMAC") && !Contains("CONNECT", "DISCONNECT") && !Contains("CONNECT", DELIMITER)
    ensures Contains("CONNECT", "CONNECT")
  {
    assert HasAt("CONNECT", "CONNECT", 0);
    assert "HMAC"[1] == 'M' && DELIMITER[0] == '\r';
    NeedsLetter("CONNECT", "HMAC", 'M');
    NeedsLetter("CONNECT", DELIMITER, '\r');
  }

  lemma HashWord(hash: string)
    ensures var words := Split("" + ['$'] + hash, ' ');
            words[0] != "" && words[0][1..] == hash <==> ' ' !in hash
  {
    var tail := "" + ['$'] + hash;
    assert tail[1..] == hash;
    var words := Split(tail, ' ');
    if ' ' in hash {
      SplitPiecesClean(tail, ' ', 0);
      assert words[0] != "" ==> forall k | 0 <= k < |words[0][1..]| :: words[0][1..][k] in words[0];
    } else {
      SplitWhole(tail, ' ');
    }
  }

  lemma ThirdWord(words: seq<string>, a: string, b: string, rest: seq<string>)
    requires words == [a] + ([b] + rest) && rest != []
    ensures |words| >= 3 && words[1] == b && words[2] == rest[0]
  {
  }

  /** The words of a printed CONNECT. */
  lemma ConnectWords(id: string, hash: string)
    ensures var words := Split(ConnectText(id, hash), ' ');
            |words| >= 2 && (|words| >= 3 && words[2] != "" && words[1] == id && words[2][1..] == hash
                             <==> ' ' !in id && ' ' !in hash)
  {
    var tail := "" + ['$'] + hash;
    var middle := id + [' '] + tail;
    var words := Split(ConnectText(id, hash), ' ');
    SplitAt("CONNECT", ' ', middle);
    var others := Split(middle, ' ');
    assert words == ["CONNECT"] + others && words[1] == others[0];
    if ' ' in id {
      SplitPiecesClean(middle, ' ', 0);
      assert words[1] != id;
    } else {
      SplitAt(id, ' ', tail);
      ThirdWord(words, "CONNECT", id, Split(tail, ' '));
      HashWord(hash);
    }
  }

  lemma FieldsDiffer(a: string, b: string, c: string, d: string)
    ensures map["channel_id" := a, "stream_key" := b] == map["channel_id" := c, "stream_key" := d] <==> a == c && b == d
    ensures map["key" := a, "value" := b] == map["key" := c, "value" := d] <==> a == c && b == d
  {
    assert "channel_id"[0] != "stream_key"[0] && |"key"| != |"value"|;
    var m, n := map["channel_id" := a, "stream_key" := b], map["channel_id" := c, "stream_key" := d];
    assert m["channel_id"] == a && m["stream_key"] == b && n["channel_id"] == c && n["stream_key"] == d;
    var p, q := map["key" := a, "value" := b], map["key" := c, "value" := d];
    assert p["key"] == a && p["value"] == b && q["key"] == c && q["value"] == d;
  }

  lemma ConnectReads(id: string, hash: string)
    ensures Classify(ConnectText(id, hash)) == Item(Connect(map["channel_id" := id, "stream_key" := hash])) <==>
            && ' ' !in id && ' ' !in hash
            && Free(id, "HMAC") && Free(hash, "HMAC") && Free(id, "DISCONNECT") && Free(hash, "DISCONNECT")
  {
    var text := ConnectText(id, hash);
    ConnectTokens();
    InConnectText(id, hash, "HMAC");
    InConnectText(id, hash, "DISCONNECT");
    InConnectText(id, hash, "CONNECT");
    ConnectWords(id, hash);
    var words := Split(text, ' ');
    if |words| >= 3 && words[2] != "" {
      FieldsDiffer(words[1], words[2][1..], id, hash);
    }
  }

  lemma AttributeWords(key: string, value: string)
    ensures var words := Split(AttributeText(key, value), ':');
            |words| >= 2 && (words[0] == key && Trim(words[1]) == value <==>
                             ':' !in key && ':' !in value && Trimmed(value))
  {
    var tail := "" + [' '] + value;
    assert tail == [' '] + value;
    var text := AttributeText(key, value);
    SplitSeveral(text, ':');
    if ':' in key {
      SplitPiecesClean(text, ':', 0);
    } else {
      SplitAt(key, ':', tail);
      if ':' in value {
        SplitPiecesClean(tail, ':', 0);
        TrimKeepsOut(Split(tail, ':')[0], ':');
      } else {
        SplitWhole(tail, ':');
        TrimFixesExactlyTrimmed(value);
      }
    }
  }

  lemma {:induction false} TrimStartKeepsOut(s: string, c: char)
    requires c !in s
    ensures c !in TrimStart(s)
  {
    if s != "" && IsSpace(s[0]) {
      TrimStartKeepsOut(s[1..], c);
    }
  }

  lemma TrimKeepsOut(s: string, c: char)
    requires c !in s
    ensures c !in Trim(s)
  {
    TrimStartKeepsOut(s, c);
  }

  lemma AttributeReads(key: string, value: string)
    ensures Classify(AttributeText(key, value)) == Item(Attribute(map["key" := key, "value" := value])) <==>
            && ':' !in key && ':' !in value && Trimmed(value)
            && Free(key, "HMAC") && Free(value, "HMAC") && Free(key, "CONNECT") && Free(value, "CONNECT")
  {
    var text := AttributeText(key, value);
    InAttributeText(key, value, "HMAC");
    InAttributeText(key, value, "CONNECT");
    if Contains(text, "DISCONNECT") {
      DisconnectIsConnect(text);
    }
    AttributeWords(key, value);
    var words := Split(text, ':');
    FieldsDiffer(words[0], Trim(words[1]), key, value);
    assert text[|key|] == ':';
  }

  /** The fixed command words read back as themselves. */
  lemma WordsRead()
    ensures Classify("HMAC") == Item(HMAC) && Classify("DISCONNECT") == Item(Disconnect)
    ensures Classify(".") == Item(Dot) && Classify("PING") == Item(Ping)
  {
    assert HasAt("HMAC", "HMAC", 0) && HasAt("DISCONNECT", "DISCONNECT", 0) && HasAt("PING", "PING", 0);
    assert "HMAC"[1] == 'M';
    NeedsLetter("DISCONNECT", "HMAC", 'M');
    NeedsLetter("PING", "HMAC", 'M');
  }

  lemma WordsClean()
    ensures Clean("HMAC") && Clean("DISCONNECT") && Clean(".") && Clean("PING")
  {
    assert DELIMITER[0] == '\r';
    NeedsLetter("HMAC", DELIMITER, '\r');
    NeedsLetter("DISCONNECT", DELIMITER, '\r');
    NeedsLetter(".", DELIMITER, '\r');
    NeedsLetter("PING", DELIMITER, '\r');
  }

  lemma ConnectClean(id: string, hash: string)
    ensures Clean(ConnectText(id, hash)) <==> Free(id, DELIMITER) && Free(hash, DELIMITER) && !EndsInCrLf(hash)
  {
    ConnectTokens();
    InConnectText(id, hash, DELIMITER);
    var text := ConnectText(id, hash);
    assert text[|text| - |hash|..] == hash && text[|text| - |hash| - 1] == '$';
  }

  lemma AttributeClean(key: string, value: string)
    requires Trimmed(value)
    ensures Clean(AttributeText(key, value)) <==> Free(key, DELIMITER) && Free(value, DELIMITER)
  {
    InAttributeText(key, value, DELIMITER);
    var text := AttributeText(key, value);
    assert text[|text| - |value|..] == value && text[|text| - |value| - 1] == ' ';
  }

  /** The frame of a command is clean and classifies to that command exactly when it is sendable. */
  lemma PrintsCleanlyIffSendable(c: FtlCommand)
    ensures Clean(Print(c)) && Classify(Print(c)) == Item(c) <==> Sendable(c)
  {
    DecodedFieldsPresent(Print(c));
    match c
    case Connect(data) =>
      if data.Keys == {"channel_id", "stream_key"} {
        var id, hash := data["channel_id"], data["stream_key"];
        assert data == map["channel_id" := id, "stream_key" := hash];
        ConnectReads(id, hash);
        ConnectClean(id, hash);
      }
    case Attribute(data) =>
      if data.Keys == {"key", "value"} {
        var key, value := data["key"], data["value"];
        assert data == map["key" := key, "value" := value];
        AttributeReads(key, value);
        if Trimmed(value) {
          AttributeClean(key, value);
        }
      }
    case _ =>
      WordsRead();
      WordsClean();
  }

  /** Round trip of one command, exactly: followed by the delimiter and anything else, the
      printed command is read back, and nothing more consumed, if and only if it is sendable. */
  lemma ReadBackExactly(c: FtlCommand, rest: string)
    ensures Next(Print(c) + DELIMITER + rest) == Cut(Item(c), rest) <==> Sendable(c)
  {
    var body := Print(c);
    var s := body + DELIMITER + rest;
    ExactFraming(body, rest);
    PrintsCleanlyIffSendable(c);
    if Clean(body) {
      assert s[..|body|] == body && s[|body| + 4..] == rest;
    } else if Find(s, DELIMITER).Some? {
      var i := Find(s, DELIMITER).value;
      assert |s[i + 4..]| == |s| - i - 4;
    }
  }

  function Prints(cs: seq<FtlCommand>): (frames: seq<string>)
    ensures |frames| == |cs|
    ensures forall k | 0 <= k < |cs| :: frames[k] == Print(cs[k])
  {
    seq(|cs|, k requires 0 <= k < |cs| => Print(cs[k]))
  }

  /** Round trip of a session: any list of sendable commands, each followed by the
      delimiter, drains to that list and leaves nothing. */
  lemma RoundTrip(cs: seq<FtlCommand>)
    requires forall k | 0 <= k < |cs| :: Sendable(cs[k])
    ensures Drain(Joined(Prints(cs))) == Drained(Prints(cs), cs, Incomplete, "")
  {
    var frames := Prints(cs);
    forall k | 0 <= k < |cs|
      ensures Clean(frames[k]) && Classify(frames[k]) == Item(cs[k])
    {
      PrintsCleanlyIffSendable(cs[k]);
    }
    assert Joined(frames) + "" == Joined(frames);
    FramingIsDrain(Joined(frames), frames, "", cs);
  }
}
