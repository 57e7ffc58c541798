/** The stream key kept in the `hash` file: chosen at start-up, read for every CONNECT. */
module StreamKey {
  import opened Wrappers
  import opened Hex

  /** Whether a write of the file succeeds; a failed one leaves anything behind. */
  datatype Disk = Written | Failed(left: Option<string>)

  /** A call: a start-up with the key from the environment, the random key it would
      generate and the disk's behaviour, or a later look-up. */
  datatype Call = Startup(env: Option<Bytes>, random: Bytes, disk: Disk) | Lookup

  /** The file afterwards and the key returned; no key is a panic. */
  datatype Read = Read(file: Option<string>, key: Option<Bytes>)

  function Load(file: Option<string>): Option<Bytes> {
    if file.None? then None else Decode(file.value)
  }

  predicate FromEnvironment(c: Call) {
    c.Startup? && c.env.Some? && c.env.value != []
  }

  function Save(key: Bytes, disk: Disk): Read {
    match disk
    case Written => Read(Some(Encode(key)), Some(key))
    case Failed(left) => Read(left, None)
  }

  /** `utf8` tells the keys that can be printed; the others panic when loaded at start-up. */
  function Perform(utf8: Bytes -> bool, file: Option<string>, c: Call): Read {
    if c.Lookup? then Read(file, Load(file))
    else if FromEnvironment(c) then Save(c.env.value, c.disk)
    else if Load(file).None? then Save(c.random, c.disk)
    else Read(file, if utf8(Load(file).value) then Load(file) else None)
  }

  class KeyFile {
    var hash: Option<string>

    method Write(key: Bytes, disk: Disk) returns (ok: bool)
      modifies this
      ensures ok == disk.Written?
      ensures hash == if ok then Some(Encode(key)) else disk.left
    {
      match disk
      case Written =>
        hash := Some(Encode(key));
        return true;
      case Failed(left) =>
        hash := left;
        return false;
    }

    method GenerateStreamKey(random: Bytes, disk: Disk) returns (key: Option<Bytes>)
      modifies this
      ensures Read(hash, key) == Save(random, disk)
    {
      var ok := Write(random, disk);
      return if ok then Some(random) else None;
    }

    method ReadStreamKey(utf8: Bytes -> bool, c: Call) returns (key: Option<Bytes>)
      modifies this
      ensures Read(hash, key) == Perform(utf8, old(hash), c)
    {
      match c
      case Startup(env, random, disk) =>
        if env.Some? && env.value != [] {
          var ok := Write(env.value, disk);
          return if ok then env else None;
        }
        if hash.None? {
          key := GenerateStreamKey(random, disk);
        } else {
          key := Decode(hash.value);
          if key.None? {
            key := GenerateStreamKey(random, disk);
          } else if !utf8(key.value) {
            return None;
          }
        }
      case Lookup =>
        return if hash.None? then None else Decode(hash.value);
    }
  }

  /** Keys given as text are printable, and a call that writes the file succeeds. */
  predicate Ordinary(utf8: Bytes -> bool, c: Call) {
    c.Startup? ==> (c.env.Some? ==> utf8(c.env.value)) && utf8(c.random) && (FromEnvironment(c) ==> c.disk.Written?)
  }

  /** The keys returned by a sequence of calls on one file. */
  function Keys(utf8: Bytes -> bool, file: Option<string>, calls: seq<Call>): seq<Option<Bytes>>
    decreases |calls|
  {
    if calls == [] then []
    else
      var r := Perform(utf8, file, calls[0]);
      [r.key] + Keys(utf8, r.file, calls[1..])
  }

  /** A register: a start-up with a key from the environment sets it, every other call reads it. */
  function Register(k: Bytes, calls: seq<Call>): seq<Option<Bytes>>
    decreases |calls|
  {
    if calls == [] then []
    else
      var now := if FromEnvironment(calls[0]) then calls[0].env.value else k;
      [Some(now)] + Register(now, calls[1..])
  }

  /** A file that holds a printable key behaves as a register from then on. */
  lemma {:induction false} FileIsRegister(utf8: Bytes -> bool, file: Option<string>, k: Bytes, calls: seq<Call>)
    requires Load(file) == Some(k) && utf8(k)
    requires forall c | c in calls :: Ordinary(utf8, c)
    ensures Keys(utf8, file, calls) == Register(k, calls)
    decreases |calls|
  {
    if calls != [] {
      var c := calls[0];
      assert Ordinary(utf8, c);
      var r := Perform(utf8, file, c);
      if FromEnvironment(c) {
        RoundTrip(c.env.value);
      }
      FileIsRegister(utf8, r.file, r.key.value, calls[1..]);
    }
  }

  /** Persistence: whatever the file held, missing, undecodable or valid, once a start-up
      returned a key, that key is what every later call returns until a start-up brings
      another one from the environment. */
  lemma KeyPersists(utf8: Bytes -> bool, file: Option<string>, first: Call, later: seq<Call>)
    requires first.Startup? && Ordinary(utf8, first) && Perform(utf8, file, first).key.Some?
    requires forall c | c in later :: Ordinary(utf8, c)
    ensures var r := Perform(utf8, file, first);
            Keys(utf8, r.file, later) == Register(r.key.value, later)
  {
    var r := Perform(utf8, file, first);
    RoundTrip(first.random);
    if first.env.Some? {
      RoundTrip(first.env.value);
    }
    FileIsRegister(utf8, r.file, r.key.value, later);
  }

  // ---------- which key ----------

  /** The file's text is hex for the key. */
  predicate Holds(file: Option<string>, k: Bytes) {
    file.Some? && Lower(file.value) == Encode(k)
  }

  ghost predicate HoldsSome(file: Option<string>) {
    exists k :: Holds(file, k)
  }

  lemma LoadsWhatItHolds(file: Option<string>)
    ensures forall k :: Load(file) == Some(k) <==> Holds(file, k)
    ensures Load(file).None? <==> !HoldsSome(file)
  {
    forall k
      ensures Load(file) == Some(k) <==> Holds(file, k)
    {
      if file.Some? {
        DecodeIsInverseOfEncode(file.value, k);
      }
    }
    if Load(file).Some? {
      assert Holds(file, Load(file).value);
    }
  }

  /** A start-up, exactly. A non-empty key of the environment is taken if it can be stored,
      whatever the file holds. Without one, and an empty one counts as none, the key the file
      holds is taken if it is text, and the file is left alone; if it holds none, the random
      key is taken if it can be stored. Else there is no key. */
  lemma StartupExactly(utf8: Bytes -> bool, file: Option<string>, env: Option<Bytes>, random: Bytes, disk: Disk)
    ensures var r := Perform(utf8, file, Startup(env, random, disk));
            && (env.Some? && env.value != [] ==>
                  if disk.Written? then r.key == env && r.file == Some(Encode(env.value)) else r.key == None)
            && (env == None || env == Some([]) ==>
                  && (forall k | Holds(file, k) :: r.file == file && r.key == if utf8(k) then Some(k) else None)
                  && (!HoldsSome(file) ==>
                        if disk.Written? then r.key == Some(random) && r.file == Some(Encode(random))
                        else r.key == None))
  {
    LoadsWhatItHolds(file);
  }

  /** A look-up, exactly: the key the file holds, and a panic if it holds none. */
  lemma LookupExactly(utf8: Bytes -> bool, file: Option<string>)
    ensures var r := Perform(utf8, file, Lookup);
            && r.file == file
            && (forall k :: r.key == Some(k) <==> Holds(file, k))
            && (r.key == None <==> !HoldsSome(file))
  {
    LoadsWhatItHolds(file);
  }

  /** The first start on a fresh machine: with no usable file and no key in the environment
      the random key is chosen, stored, and returned by every later look-up. */
  lemma FirstStart(utf8: Bytes -> bool, file: Option<string>, env: Option<Bytes>, random: Bytes, n: nat)
    requires !HoldsSome(file) && (env == None || env == Some([]))
    ensures Keys(utf8, file, [Startup(env, random, Written)] + Lookups(n)) == [Some(random)] + Again(random, n)
  {
    var first := Startup(env, random, Written);
    StartupExactly(utf8, file, env, random, Written);
    assert ([first] + Lookups(n))[1..] == Lookups(n);
    RoundTrip(random);
    LookupsRepeat(utf8, Some(Encode(random)), random, n);
  }

  function Lookups(n: nat): seq<Call> {
    if n == 0 then [] else [Lookup] + Lookups(n - 1)
  }

  function Again(k: Bytes, n: nat): seq<Option<Bytes>> {
    if n == 0 then [] else [Some(k)] + Again(k, n - 1)
  }

  lemma {:induction false} LookupsRepeat(utf8: Bytes -> bool, file: Option<string>, k: Bytes, n: nat)
    requires Load(file) == Some(k)
    ensures Keys(utf8, file, Lookups(n)) == Again(k, n)
  {
    if n > 0 {
      LookupsRepeat(utf8, file, k, n - 1);
      assert Lookups(n)[1..] == Lookups(n - 1);
    }
  }
}
