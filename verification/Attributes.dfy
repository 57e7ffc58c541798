/** What the server stores of the negotiation, by the literal name of each attribute. */
module Attributes {
  import opened Wrappers
  import opened FtlCodec
  import opened Connection
  import opened Session
  import opened SessionProofs

  /** An attribute command of that name, with both its fields. */
  predicate Names(c: FtlCommand, name: string) {
    c.Attribute? && "key" in c.data && "value" in c.data && c.data["key"] == name
  }

  /** The value of the last attribute of that name. */
  function LastValue(trace: seq<Handled>, name: string): Option<string> {
    if trace == [] then None
    else
      var c := trace[|trace| - 1].command;
      if Names(c, name) then Some(c.data["value"]) else LastValue(trace[..|trace| - 1], name)
  }

  /** The last attribute of that name that is true or false, as a flag; false at first. */
  function LastFlag(trace: seq<Handled>, name: string): bool {
    if trace == [] then false
    else
      var c := trace[|trace| - 1].command;
      if Names(c, name) && c.data["value"] in {"true", "false"} then c.data["value"] == "true"
      else LastFlag(trace[..|trace| - 1], name)
  }

  /** The field for each key, by name. */
  lemma KeysByName(name: string)
    ensures KeyNamed(name) == ProtocolVersion <==> name == "ProtocolVersion"
    ensures KeyNamed(name) == VendorName <==> name == "VendorName"
    ensures KeyNamed(name) == VendorVersion <==> name == "VendorVersion"
    ensures KeyNamed(name) == Video <==> name == "Video"
    ensures KeyNamed(name) == VideoCodec <==> name == "VideoCodec"
    ensures KeyNamed(name) == VideoHeight <==> name == "VideoHeight"
    ensures KeyNamed(name) == VideoWidth <==> name == "VideoWidth"
    ensures KeyNamed(name) == VideoPayloadType <==> name == "VideoPayloadType"
    ensures KeyNamed(name) == VideoIngestSsrc <==> name == "VideoIngestSSRC"
    ensures KeyNamed(name) == Audio <==> name == "Audio"
    ensures KeyNamed(name) == AudioCodec <==> name == "AudioCodec"
    ensures KeyNamed(name) == AudioPayloadType <==> name == "AudioPayloadType"
    ensures KeyNamed(name) == AudioIngestSsrc <==> name == "AudioIngestSSRC"
  {
  }

  /** What a command stores: its value if it has the name, else what was there. */
  function Updated(c: FtlCommand, name: string, before: Option<string>): Option<string> {
    if Names(c, name) then Some(c.data["value"]) else before
  }

  function UpdatedFlag(c: FtlCommand, name: string, before: bool): bool {
    if Names(c, name) && c.data["value"] in {"true", "false"} then c.data["value"] == "true" else before
  }

  /** A command stores its attribute, if it is one, and at most the payload beside that. */
  lemma AdvanceStores(env: Env, srv: Server, c: FtlCommand)
    ensures var f, g := srv.fields, Advance(env, srv, c).fields;
            if c.Attribute? && "key" in c.data && "value" in c.data then
              var h := Store(f, KeyNamed(c.data["key"]), c.data["value"]);
              g == if h.Some? then h.value else f
            else g == f.(hmacPayload := g.hmacPayload)
  {
  }

  lemma StoresIdentity(env: Env, srv: Server, c: FtlCommand)
    ensures var f, g := srv.fields, Advance(env, srv, c).fields;
            && g.protocolVersion == Updated(c, "ProtocolVersion", f.protocolVersion)
            && g.vendorName == Updated(c, "VendorName", f.vendorName)
            && g.vendorVersion == Updated(c, "VendorVersion", f.vendorVersion)
  {
    AdvanceStores(env, srv, c);
    if c.Attribute? && "key" in c.data {
      KeysByName(c.data["key"]);
    }
  }

  lemma StoresVideo(env: Env, srv: Server, c: FtlCommand)
    ensures var f, g := srv.fields, Advance(env, srv, c).fields;
            && g.video == UpdatedFlag(c, "Video", f.video)
            && g.videoCodec == Updated(c, "VideoCodec", f.videoCodec)
            && g.videoHeight == Updated(c, "VideoHeight", f.videoHeight)
            && g.videoWidth == Updated(c, "VideoWidth", f.videoWidth)
            && g.videoPayloadType == Updated(c, "VideoPayloadType", f.videoPayloadType)
            && g.videoIngestSsrc == Updated(c, "VideoIngestSSRC", f.videoIngestSsrc)
  {
    AdvanceStores(env, srv, c);
    if c.Attribute? && "key" in c.data {
      KeysByName(c.data["key"]);
    }
  }

  lemma StoresAudio(env: Env, srv: Server, c: FtlCommand)
    ensures var f, g := srv.fields, Advance(env, srv, c).fields;
            && g.audio == UpdatedFlag(c, "Audio", f.audio)
            && g.audioCodec == Updated(c, "AudioCodec", f.audioCodec)
            && g.audioPayloadType == Updated(c, "AudioPayloadType", f.audioPayloadType)
            && g.audioIngestSsrc == Updated(c, "AudioIngestSSRC", f.audioIngestSsrc)
  {
    AdvanceStores(env, srv, c);
    if c.Attribute? && "key" in c.data {
      KeysByName(c.data["key"]);
    }
  }

  /** Every field holds the value last sent under its name, whatever else was sent: the
      flags the last valid one. An attribute of any other name changes none of them. */
  lemma {:induction false} EveryFieldByName(env: Env, trace: seq<Handled>)
    ensures var f := ServerAfter(env, trace).fields;
            && f.protocolVersion == LastValue(trace, "ProtocolVersion")
            && f.vendorName == LastValue(trace, "VendorName")
            && f.vendorVersion == LastValue(trace, "VendorVersion")
            && f.video == LastFlag(trace, "Video")
            && f.videoCodec == LastValue(trace, "VideoCodec")
            && f.videoHeight == LastValue(trace, "VideoHeight")
            && f.videoWidth == LastValue(trace, "VideoWidth")
            && f.videoPayloadType == LastValue(trace, "VideoPayloadType")
            && f.videoIngestSsrc == LastValue(trace, "VideoIngestSSRC")
            && f.audio == LastFlag(trace, "Audio")
            && f.audioCodec == LastValue(trace, "AudioCodec")
            && f.audioPayloadType == LastValue(trace, "AudioPayloadType")
            && f.audioIngestSsrc == LastValue(trace, "AudioIngestSSRC")
  {
    if trace != [] {
      var before, c := trace[..|trace| - 1], trace[|trace| - 1].command;
      var srv := ServerAfter(env, before);
      EveryFieldByName(env, before);
      StoresIdentity(env, srv, c);
      StoresVideo(env, srv, c);
      StoresAudio(env, srv, c);
    }
  }
}
