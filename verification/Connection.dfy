/** One ingest connection: its negotiated state, the handling of each command and the
    writing of each answer. */
module Connection {
  import opened Wrappers
  import opened Hex
  import opened FtlCodec
  import StreamKey

  /** The random payload of an HMAC answer: 128 draws from [0, 0xFF). */
  type Sample = x: int | 0 <= x < 255
  type Nonce = b: seq<byte> | |b| == 128 && forall k | 0 <= k < |b| :: b[k] < 255 witness seq(128, _ => 0)

  /** What the outside world supplies: HMAC-SHA512 (RFC 2104), the contents of the key
      file when the k-th command is handled, and the random payloads in the order drawn. */
  datatype Env = Env(mac: (Bytes, Bytes) -> Bytes, hashFile: nat -> Option<string>, nonces: nat -> Nonce)

  datatype Fields = Fields(
    hmacPayload: Option<string>,
    protocolVersion: Option<string>,
    vendorName: Option<string>,
    vendorVersion: Option<string>,
    video: bool,
    videoCodec: Option<string>,
    videoHeight: Option<string>,
    videoWidth: Option<string>,
    videoPayloadType: Option<string>,
    videoIngestSsrc: Option<string>,
    audio: bool,
    audioCodec: Option<string>,
    audioPayloadType: Option<string>,
    audioIngestSsrc: Option<string>
  )

  const FRESH: Fields := Fields(None, None, None, None, false, None, None, None, None, None, false, None, None, None)

  /** The attributes the server stores; any other key is `Unknown`. */
  datatype AttributeKey =
    | ProtocolVersion | VendorName | VendorVersion
    | Video | VideoCodec | VideoHeight | VideoWidth | VideoPayloadType | VideoIngestSsrc
    | Audio | AudioCodec | AudioPayloadType | AudioIngestSsrc
    | Unknown

  function KeyNamed(name: string): AttributeKey {
    if name == "ProtocolVersion" then ProtocolVersion
    else if name == "VendorName" then VendorName
    else if name == "VendorVersion" then VendorVersion
    else if name == "Video" then Video
    else if name == "VideoCodec" then VideoCodec
    else if name == "VideoHeight" then VideoHeight
    else if name == "VideoWidth" then VideoWidth
    else if name == "VideoPayloadType" then VideoPayloadType
    else if name == "VideoIngestSSRC" then VideoIngestSsrc
    else if name == "Audio" then Audio
    else if name == "AudioCodec" then AudioCodec
    else if name == "AudioPayloadType" then AudioPayloadType
    else if name == "AudioIngestSSRC" then AudioIngestSsrc
    else Unknown
  }

  predicate IsFlag(key: AttributeKey) {
    key.Video? || key.Audio?
  }

  predicate IsVideoText(key: AttributeKey) {
    key.VideoCodec? || key.VideoHeight? || key.VideoWidth? || key.VideoPayloadType? || key.VideoIngestSsrc?
  }

  function FlagValue(value: string): Option<bool> {
    if value == "true" then Some(true) else if value == "false" then Some(false) else None
  }

  /** The state after an attribute, or nothing for a flag that is neither true nor false. */
  function Store(f: Fields, key: AttributeKey, value: string): Option<Fields> {
    match key
    case ProtocolVersion => Some(f.(protocolVersion := Some(value)))
    case VendorName => Some(f.(vendorName := Some(value)))
    case VendorVersion => Some(f.(vendorVersion := Some(value)))
    case Video => if FlagValue(value).Some? then Some(f.(video := FlagValue(value).value)) else None
    case VideoCodec => Some(f.(videoCodec := Some(value)))
    case VideoHeight => Some(f.(videoHeight := Some(value)))
    case VideoWidth => Some(f.(videoWidth := Some(value)))
    case VideoPayloadType => Some(f.(videoPayloadType := Some(value)))
    case VideoIngestSsrc => Some(f.(videoIngestSsrc := Some(value)))
    case Audio => if FlagValue(value).Some? then Some(f.(audio := FlagValue(value).value)) else None
    case AudioCodec => Some(f.(audioCodec := Some(value)))
    case AudioPayloadType => Some(f.(audioPayloadType := Some(value)))
    case AudioIngestSsrc => Some(f.(audioIngestSsrc := Some(value)))
    case Unknown => Some(f)
  }

  function GetPayload(f: Fields): string {
    if f.hmacPayload.Some? then f.hmacPayload.value else ""
  }

  /** The key read when the k-th command is a CONNECT; a missing or undecodable file
      panics the task. */
  function ServerKey(env: Env, k: nat): Option<Bytes> {
    StreamKey.Load(env.hashFile(k))
  }

  datatype Outcome = Reply(pieces: seq<string>) | Silent | Panic

  function Verdict(env: Env, k: nat, f: Fields, data: map<string, string>): Outcome {
    if "stream_key" in data && "channel_id" in data then
      match (Decode(data["stream_key"]), ServerKey(env, k), Decode(GetPayload(f)))
      case (Some(hash), Some(key), Some(payload)) =>
        if env.mac(key, payload) == hash then Reply(["200\n"]) else Silent
      case _ => Panic
    else Silent
  }

  datatype Handling = Handling(fields: Fields, outcome: Outcome)

  function Handle(env: Env, k: nat, f: Fields, nonce: Nonce, command: FtlCommand): Handling {
    match command
    case HMAC =>
      Handling(f.(hmacPayload := Some(Encode(nonce))), Reply(["200 ", Encode(nonce), "\n"]))
    case Connect(data) => Handling(f, Verdict(env, k, f, data))
    case Attribute(data) =>
      if "key" in data && "value" in data then
        match Store(f, KeyNamed(data["key"]), data["value"])
        case Some(g) => Handling(g, Reply([""]))
        case None => Handling(f, Silent)
      else Handling(f, Silent)
    case Ping => Handling(f, Reply(["201\n"]))
    case Dot => Handling(f, Reply(["200 hi. Use UDP port 65535\n"]))
    case Disconnect => Handling(f, Silent)
  }

  /** The mutable state of the command task. */
  class ConnectionState {
    var hmacPayload: Option<string>
    var protocolVersion: Option<string>
    var vendorName: Option<string>
    var vendorVersion: Option<string>
    var video: bool
    var videoCodec: Option<string>
    var videoHeight: Option<string>
    var videoWidth: Option<string>
    var videoPayloadType: Option<string>
    var videoIngestSsrc: Option<string>
    var audio: bool
    var audioCodec: Option<string>
    var audioPayloadType: Option<string>
    var audioIngestSsrc: Option<string>

    function View(): Fields
      reads this
    {
      Fields(hmacPayload, protocolVersion, vendorName, vendorVersion,
             video, videoCodec, videoHeight, videoWidth, videoPayloadType, videoIngestSsrc,
             audio, audioCodec, audioPayloadType, audioIngestSsrc)
    }

    constructor ()
      ensures View() == FRESH
    {
      hmacPayload, protocolVersion, vendorName, vendorVersion := None, None, None, None;
      video, videoCodec, videoHeight, videoWidth := false, None, None, None;
      videoPayloadType, videoIngestSsrc := None, None;
      audio, audioCodec, audioPayloadType, audioIngestSsrc := false, None, None, None;
    }

    method StoreFlag(isVideo: bool, value: string) returns (stored: bool)
      modifies this
      ensures var g := Store(old(View()), if isVideo then Video else Audio, value);
              stored == g.Some? && View() == if stored then g.value else old(View())
    {
      if value != "true" && value != "false" {
        return false;
      }
      if isVideo {
        video := value == "true";
      } else {
        audio := value == "true";
      }
      return true;
    }

    method StoreAttribute(key: string, value: string) returns (stored: bool)
      modifies this
      ensures var g := Store(old(View()), KeyNamed(key), value);
              stored == g.Some? && View() == if stored then g.value else old(View())
    {
      if key == "Video" {
        stored := StoreFlag(true, value);
      } else if key == "Audio" {
        stored := StoreFlag(false, value);
      } else {
        StoreText(key, value);
        stored := true;
      }
    }

    /** The attributes that are not flags; an unknown one sets nothing. */
    method StoreText(key: string, value: string)
      requires !IsFlag(KeyNamed(key))
      modifies this
      ensures Some(View()) == Store(old(View()), KeyNamed(key), value)
    {
      if key == "ProtocolVersion" {
        protocolVersion := Some(value);
      } else if key == "VendorName" {
        vendorName := Some(value);
      } else if key == "VendorVersion" {
        vendorVersion := Some(value);
      } else if key == "AudioCodec" {
        audioCodec := Some(value);
      } else if key == "AudioPayloadType" {
        audioPayloadType := Some(value);
      } else if key == "AudioIngestSSRC" {
        audioIngestSsrc := Some(value);
      } else {
        StoreVideoText(key, value);
      }
    }

    method StoreVideoText(key: string, value: string)
      requires KeyNamed(key).Unknown? || IsVideoText(KeyNamed(key))
      modifies this
      ensures Some(View()) == Store(old(View()), KeyNamed(key), value)
    {
      if key == "VideoCodec" {
        videoCodec := Some(value);
      } else if key == "VideoHeight" {
        videoHeight := Some(value);
      } else if key == "VideoWidth" {
        videoWidth := Some(value);
      } else if key == "VideoPayloadType" {
        videoPayloadType := Some(value);
      } else if key == "VideoIngestSSRC" {
        videoIngestSsrc := Some(value);
      }
    }

    /** The command task's handling of one command; the answer goes to the frame task. */
    method HandleCommand(env: Env, k: nat, nonce: Nonce, command: FtlCommand) returns (answer: Outcome)
      modifies this
      ensures Handling(View(), answer) == Handle(env, k, old(View()), nonce, command)
    {
      match command
      case Disconnect =>
        return Silent;
      case Dot =>
        return Reply(["200 hi. Use UDP port 65535\n"]);
      case HMAC =>
        hmacPayload := Some(Encode(nonce));
        return Reply(["200 ", GetPayload(View()), "\n"]);
      case Connect(data) =>
        if "stream_key" !in data || "channel_id" !in data {
          return Silent;
        }
        var clientHash := Decode(data["stream_key"]);
        if clientHash.None? {
          return Panic;
        }
        var key := ServerKey(env, k);
        if key.None? {
          return Panic;
        }
        var payload := Decode(GetPayload(View()));
        if payload.None? {
          return Panic;
        }
        if env.mac(key.value, payload.value) == clientHash.value {
          return Reply(["200\n"]);
        }
        return Silent;
      case Attribute(data) =>
        if "key" !in data || "value" !in data {
          return Silent;
        }
        var stored := StoreAttribute(data["key"], data["value"]);
        if !stored {
          return Silent;
        }
        return Reply([""]);
      case Ping =>
        return Reply(["201\n"]);
    }
  }

  lemma {:induction false} EncodeLength(b: Bytes)
    ensures |Encode(b)| == 2 * |b|
  {
    if b != [] {
      EncodeLength(b[1..]);
    }
  }

  /** The payload is 256 hex digits that decode to the 128 values drawn, in order. */
  method GenerateHmac(sample: nat -> Sample) returns (payload: string)
    ensures |payload| == 256
    ensures Decode(payload) == Some(seq(128, k requires 0 <= k => sample(k)))
  {
    var drawn: Bytes := [];
    for i := 0 to 128
      invariant drawn == seq(i, k requires 0 <= k => sample(k))
    {
      drawn := drawn + [sample(i)];
    }
    payload := Encode(drawn);
    EncodeLength(drawn);
    RoundTrip(drawn);
  }

  /** The stream to the client; it takes `room` more bytes and then fails. */
  class Socket {
    var wire: string
    var room: nat

    constructor (room: nat)
      ensures wire == "" && this.room == room
    {
      wire, this.room := "", room;
    }

    method Send(item: string) returns (ok: bool)
      modifies this
      ensures ok <==> |item| <= old(room)
      ensures wire == old(wire) + if ok then item else item[..old(room)]
      ensures room == if ok then old(room) - |item| else 0
    {
      ok := |item| <= room;
      var n := if ok then |item| else room;
      wire, room := wire + item[..n], room - n;
    }
  }

  function Reversed(s: seq<string>): (r: seq<string>)
    ensures |r| == |s|
  {
    if s == [] then [] else [s[|s| - 1]] + Reversed(s[..|s| - 1])
  }

  lemma {:induction false} ReversedCons(x: string, s: seq<string>)
    ensures Reversed([x] + s) == Reversed(s) + [x]
  {
    var t := [x] + s;
    if s == [] {
      assert t[..0] == [];
    } else {
      assert t[..|t| - 1] == [x] + s[..|s| - 1];
      ReversedCons(x, s[..|s| - 1]);
    }
  }

  lemma {:induction false} ReversedTwice(s: seq<string>)
    ensures Reversed(Reversed(s)) == s
  {
    if s != [] {
      ReversedTwice(s[..|s| - 1]);
      ReversedCons(s[|s| - 1], Reversed(s[..|s| - 1]));
    }
  }

  /** The frame task writing an answer: the pieces reach the wire in their order, up to
      the byte at which the socket fails; no answer at all is an error. */
  method HandleFrameCommand(command: Option<seq<string>>, frame: Socket) returns (ok: bool)
    modifies frame
    ensures command.None? ==> !ok && frame.wire == old(frame.wire)
    ensures command.Some? ==>
              var out := Flat(command.value);
              && (ok <==> |out| <= old(frame.room))
              && frame.wire == old(frame.wire) + if ok then out else out[..old(frame.room)]
  {
    match command
    case Some(data) =>
      var d := Reversed(data);
      ReversedTwice(data);
      while d != []
        invariant frame.wire + Flat(Reversed(d)) == old(frame.wire) + Flat(data)
        invariant frame.room + |frame.wire| == old(frame.room) + |old(frame.wire)|
        invariant |frame.wire| >= |old(frame.wire)|
        invariant old(frame.wire) <= frame.wire
      {
        var item := d[|d| - 1];
        d := d[..|d| - 1];
        ghost var before, later := frame.wire, Flat(Reversed(d));
        var sent := frame.Send(item);
        if !sent {
          ghost var whole := old(frame.wire) + Flat(data);
          assert whole == before + (item + later);
          assert frame.wire == whole[..|frame.wire|];
          assert whole[..|frame.wire|] == old(frame.wire) + Flat(data)[..old(frame.room)];
          return false;
        }
      }
      return true;
    case None =>
      return false;
  }
}
