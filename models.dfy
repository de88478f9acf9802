/** The machine-configuration record and its validation from a string map,
    and the byte stream that the `Hash` implementations of `Vec2D` and
    `Movement` feed to a hasher (the job cache keys on it). */
module Models {
  import opened Wrappers
  import opened Text
  import opened Gcode

  type Byte = b: int | 0 <= b < 256

  datatype Vec2D = Vec2D(x: F32, y: F32)

  datatype Movement = Movement(dest: Vec2D, penDown: bool)

  datatype MachineDetails = MachineDetails(
    dimensions: Vec2D, flavor: Flavor, device: string, port: string, baudRate: U32)

  /** Why `MachineDetails::from` panics: a key is absent (`expect`), its value
      does not parse (`unwrap`), or the flavour is not one it knows. */
  datatype ConfigError = MissingValue(key: string) | Unparsable(key: string) | UnknownFlavor(name: string)

  type Config = map<string, string>

  /** `str::parse::<f32>`. Its grammar is not modelled: validation takes it as
      a parameter. */
  type ParseF32 = string -> Option<F32>

  /** The flavour names the configuration accepts, matched exactly. */
  function FlavorName(f: Flavor): string
  {
    match f
    case Grbl => "GRBL"
    case Marlin => "Marlin"
  }

  /** The flavour match: a name is accepted exactly when it is the spelling of
      a flavour, letter case included. */
  function ParseFlavor(name: string): (r: Option<Flavor>)
    ensures r.Some? ==> FlavorName(r.value) == name
    ensures forall f: Flavor :: name == FlavorName(f) ==> r == Some(f)
  {
    if name == "GRBL" then Some(Grbl)
    else if name == "Marlin" then Some(Marlin)
    else None
  }

  /** The keys `MachineDetails::from` reads, in the order it reads them. */
  const KEYS: seq<string> := ["xdim", "ydim", "flavor", "name", "port", "baud_rate"]

  /** What is wrong with one key of the configuration, if anything. */
  function KeyError(cfg: Config, parse: ParseF32, key: string): Option<ConfigError>
  {
    if key !in cfg then Some(MissingValue(key))
    else if (key == "xdim" || key == "ydim") && parse(cfg[key]).None? then Some(Unparsable(key))
    else if key == "flavor" && ParseFlavor(cfg[key]).None? then Some(UnknownFlavor(cfg[key]))
    else if key == "baud_rate" && ParseU32(cfg[key]).None? then Some(Unparsable(key))
    else None
  }

  /** The error of the first key, in the given order, that has one. */
  function FirstError(cfg: Config, parse: ParseF32, keys: seq<string>): Option<ConfigError>
  {
    if keys == [] then None
    else if KeyError(cfg, parse, keys[0]).Some? then KeyError(cfg, parse, keys[0])
    else FirstError(cfg, parse, keys[1..])
  }

  /** `MachineDetails::from`: the fields are built in declaration order, each
      looked up (and parsed) in turn, so the first bad key is the one that
      panics. */
  function FromConfig(cfg: Config, parse: ParseF32): (r: Result<MachineDetails, ConfigError>)
    ensures r.Ok? ==>
      "xdim" in cfg && "ydim" in cfg && "flavor" in cfg &&
      "name" in cfg && "port" in cfg && "baud_rate" in cfg &&
      Some(r.value.dimensions.x) == parse(cfg["xdim"]) &&
      Some(r.value.dimensions.y) == parse(cfg["ydim"]) &&
      FlavorName(r.value.flavor) == cfg["flavor"] &&
      r.value.device == cfg["name"] && r.value.port == cfg["port"] &&
      Some(r.value.baudRate) == ParseU32(cfg["baud_rate"])
  {
    if "xdim" !in cfg then Err(MissingValue("xdim"))
    else if parse(cfg["xdim"]).None? then Err(Unparsable("xdim"))
    else if "ydim" !in cfg then Err(MissingValue("ydim"))
    else if parse(cfg["ydim"]).None? then Err(Unparsable("ydim"))
    else if "flavor" !in cfg then Err(MissingValue("flavor"))
    else if ParseFlavor(cfg["flavor"]).None? then Err(UnknownFlavor(cfg["flavor"]))
    else if "name" !in cfg then Err(MissingValue("name"))
    else if "port" !in cfg then Err(MissingValue("port"))
    else if "baud_rate" !in cfg then Err(MissingValue("baud_rate"))
    else if ParseU32(cfg["baud_rate"]).None? then Err(Unparsable("baud_rate"))
    else
      Ok(MachineDetails(
        Vec2D(parse(cfg["xdim"]).value, parse(cfg["ydim"]).value),
        ParseFlavor(cfg["flavor"]).value,
        cfg["name"], cfg["port"],
        ParseU32(cfg["baud_rate"]).value))
  }

  /** No key has an error exactly when the first-error search finds none. */
  lemma {:induction false} FirstErrorNone(cfg: Config, parse: ParseF32, keys: seq<string>)
    ensures FirstError(cfg, parse, keys).None? <==>
      forall i :: 0 <= i < |keys| ==> KeyError(cfg, parse, keys[i]).None?
  {
    if keys != [] {
      FirstErrorNone(cfg, parse, keys[1..]);
      assert forall i :: 1 <= i < |keys| ==> keys[i] == keys[1..][i - 1];
    }
  }

  /** The first-error search over the six keys, unrolled. */
  lemma FirstErrorUnrolled(cfg: Config, parse: ParseF32)
    ensures FirstError(cfg, parse, KEYS) ==
      if KeyError(cfg, parse, "xdim").Some? then KeyError(cfg, parse, "xdim")
      else if KeyError(cfg, parse, "ydim").Some? then KeyError(cfg, parse, "ydim")
      else if KeyError(cfg, parse, "flavor").Some? then KeyError(cfg, parse, "flavor")
      else if KeyError(cfg, parse, "name").Some? then KeyError(cfg, parse, "name")
      else if KeyError(cfg, parse, "port").Some? then KeyError(cfg, parse, "port")
      else KeyError(cfg, parse, "baud_rate")
  {
    assert FirstError(cfg, parse, ["xdim", "ydim", "flavor", "name", "port", "baud_rate"]) ==
      if KeyError(cfg, parse, "xdim").Some? then KeyError(cfg, parse, "xdim")
      else FirstError(cfg, parse, ["ydim", "flavor", "name", "port", "baud_rate"]);
    assert FirstError(cfg, parse, ["ydim", "flavor", "name", "port", "baud_rate"]) ==
      if KeyError(cfg, parse, "ydim").Some? then KeyError(cfg, parse, "ydim")
      else FirstError(cfg, parse, ["flavor", "name", "port", "baud_rate"]);
    assert FirstError(cfg, parse, ["flavor", "name", "port", "baud_rate"]) ==
      if KeyError(cfg, parse, "flavor").Some? then KeyError(cfg, parse, "flavor")
      else FirstError(cfg, parse, ["name", "port", "baud_rate"]);
    assert FirstError(cfg, parse, ["name", "port", "baud_rate"]) ==
      if KeyError(cfg, parse, "name").Some? then KeyError(cfg, parse, "name")
      else FirstError(cfg, parse, ["port", "baud_rate"]);
    assert FirstError(cfg, parse, ["port", "baud_rate"]) ==
      if KeyError(cfg, parse, "port").Some? then KeyError(cfg, parse, "port")
      else FirstError(cfg, parse, ["baud_rate"]);
    assert FirstError(cfg, parse, ["baud_rate"]) ==
      if KeyError(cfg, parse, "baud_rate").Some? then KeyError(cfg, parse, "baud_rate")
      else FirstError(cfg, parse, []);
  }

  /** Validation fails exactly when some key has an error, and then with the
      error of the first such key in reading order. */
  lemma FirstBadKey(cfg: Config, parse: ParseF32)
    ensures var r := FromConfig(cfg, parse);
      (r.Err? <==> FirstError(cfg, parse, KEYS).Some?) &&
      (r.Err? ==> r.error == FirstError(cfg, parse, KEYS).value)
  {
    FirstErrorUnrolled(cfg, parse);
  }

  /** Validation succeeds exactly when each of the six keys is present and
      its value parses (and the flavour is a known one). */
  lemma ValidIff(cfg: Config, parse: ParseF32)
    ensures FromConfig(cfg, parse).Ok? <==>
      forall i :: 0 <= i < |KEYS| ==> KeyError(cfg, parse, KEYS[i]).None?
  {
    FirstBadKey(cfg, parse);
    FirstErrorNone(cfg, parse, KEYS);
  }

  /** A configuration without one of the six keys is always rejected. */
  lemma MissingKeyFails(cfg: Config, parse: ParseF32, i: nat)
    requires i < |KEYS| && KEYS[i] !in cfg
    ensures FromConfig(cfg, parse).Err?
  {
    ValidIff(cfg, parse);
  }

  /** Keys other than the six do not affect validation or the record. */
  lemma OtherKeysIgnored(cfg: Config, cfg': Config, parse: ParseF32)
    requires forall i :: 0 <= i < |KEYS| ==>
      (KEYS[i] in cfg <==> KEYS[i] in cfg') && (KEYS[i] in cfg ==> cfg[KEYS[i]] == cfg'[KEYS[i]])
    ensures FromConfig(cfg, parse) == FromConfig(cfg', parse)
  {
    assert KEYS[0] == "xdim" && KEYS[1] == "ydim" && KEYS[2] == "flavor";
    assert KEYS[3] == "name" && KEYS[4] == "port" && KEYS[5] == "baud_rate";
  }

  /** The configuration map a record is read back from. */
  function ToConfig(d: MachineDetails, fmt: Fmt): Config
  {
    map["xdim" := fmt(d.dimensions.x), "ydim" := fmt(d.dimensions.y),
        "flavor" := FlavorName(d.flavor), "name" := d.device, "port" := d.port,
        "baud_rate" := Decimal(d.baudRate)]
  }

  /** A record written out as a configuration validates back to itself,
      whenever the float parse reads the formatted dimensions back. */
  lemma ConfigRoundTrip(d: MachineDetails, fmt: Fmt, parse: ParseF32)
    requires parse(fmt(d.dimensions.x)) == Some(d.dimensions.x)
    requires parse(fmt(d.dimensions.y)) == Some(d.dimensions.y)
    ensures FromConfig(ToConfig(d, fmt), parse) == Ok(d)
  {
    DecimalRoundTrip(d.baudRate);
    var cfg := ToConfig(d, fmt);
    assert cfg["baud_rate"] == Decimal(d.baudRate);
    assert cfg["flavor"] == FlavorName(d.flavor);
  }

  // ---- Hash input ----

  /** One call a `Hash` implementation makes on its `Hasher`. */
  datatype HashWrite = LengthPrefix(len: nat) | Bytes(bytes: seq<Byte>) | U8(b: Byte)

  /** `f32::to_le_bytes`: the bit pattern, least significant byte first. */
  function LeBytes(bits: Bits32): (r: seq<Byte>)
    ensures |r| == 4
  {
    [bits % 0x100, bits / 0x100 % 0x100, bits / 0x1_0000 % 0x100, bits / 0x100_0000]
  }

  /** The bit pattern four little-endian bytes stand for. */
  function FromLeBytes(b: seq<Byte>): int
    requires |b| == 4
  {
    b[0] as int + 0x100 * b[1] as int + 0x1_0000 * b[2] as int + 0x100_0000 * b[3] as int
  }

  /** The little-endian bytes give the bit pattern back. */
  lemma LeBytesRoundTrip(bits: Bits32)
    ensures FromLeBytes(LeBytes(bits)) == bits
  {
    var q1 := bits / 0x100;
    var q2 := q1 / 0x100;
    assert bits == bits % 0x100 + 0x100 * q1;
    assert q1 == q1 % 0x100 + 0x100 * q2;
    assert q2 == q2 % 0x100 + 0x100 * (q2 / 0x100);
    assert bits / 0x1_0000 == q2 by {
      assert bits == bits % 0x100 + 0x100 * (q1 % 0x100) + 0x1_0000 * q2;
    }
    assert bits / 0x100_0000 == q2 / 0x100 by {
      assert bits == bits % 0x100 + 0x100 * (q1 % 0x100) + 0x1_0000 * (q2 % 0x100) + 0x100_0000 * (q2 / 0x100);
    }
  }

  /** `[u8; N]::hash`: an array hashes as a slice, its length and then its
      bytes. */
  function ByteArrayInput(b: seq<Byte>): seq<HashWrite>
  {
    [LengthPrefix(|b|), Bytes(b)]
  }

  /** The `Vec2D` hash input: the array of x's bytes, then y's. */
  function Vec2DInput(v: Vec2D): seq<HashWrite>
  {
    ByteArrayInput(LeBytes(v.x.bits)) + ByteArrayInput(LeBytes(v.y.bits))
  }

  /** `bool::hash` writes the value as one byte. */
  function BoolInput(b: bool): seq<HashWrite>
  {
    [U8(if b then 1 else 0)]
  }

  /** The derived `Movement` hash input: `dest`, then `pen_down`. */
  function MovementInput(m: Movement): seq<HashWrite>
  {
    Vec2DInput(m.dest) + BoolInput(m.penDown)
  }

  /** The movements' inputs one after another. */
  function Items(ms: seq<Movement>): seq<HashWrite>
  {
    if ms == [] then [] else MovementInput(ms[0]) + Items(ms[1..])
  }

  /** `Vec<Movement>::hash`: the length, then every movement in order. */
  function MovementsInput(ms: seq<Movement>): seq<HashWrite>
  {
    [LengthPrefix(|ms|)] + Items(ms)
  }

  /** Two points have the same hash input exactly when their coordinates
      have the same bit patterns. */
  lemma Vec2DInputInjective(v: Vec2D, w: Vec2D)
    ensures Vec2DInput(v) == Vec2DInput(w) <==> v == w
  {
    if Vec2DInput(v) == Vec2DInput(w) {
      assert Vec2DInput(v)[1] == Vec2DInput(w)[1] && Vec2DInput(v)[3] == Vec2DInput(w)[3];
      LeBytesRoundTrip(v.x.bits);
      LeBytesRoundTrip(w.x.bits);
      LeBytesRoundTrip(v.y.bits);
      LeBytesRoundTrip(w.y.bits);
    }
  }

  /** Swapping the coordinates swaps the two halves of the hash input. */
  lemma Vec2DSwap(v: Vec2D)
    ensures Vec2DInput(Vec2D(v.y, v.x)) == Vec2DInput(v)[2..] + Vec2DInput(v)[..2]
  {
  }

  /** A movement's hash input is five writes, and it determines the
      movement. */
  lemma MovementInputInjective(m: Movement, n: Movement)
    ensures |MovementInput(m)| == 5
    ensures MovementInput(m) == MovementInput(n) <==> m == n
  {
    if MovementInput(m) == MovementInput(n) {
      assert MovementInput(m)[..4] == Vec2DInput(m.dest);
      assert MovementInput(n)[..4] == Vec2DInput(n.dest);
      Vec2DInputInjective(m.dest, n.dest);
      assert MovementInput(m)[4] == U8(if m.penDown then 1 else 0);
      assert MovementInput(n)[4] == U8(if n.penDown then 1 else 0);
    }
  }

  /** Movements of the same count with the same items' input are equal. */
  lemma {:induction false} ItemsInjective(a: seq<Movement>, b: seq<Movement>)
    requires |a| == |b| && Items(a) == Items(b)
    ensures a == b
  {
    if a != [] {
      MovementInputInjective(a[0], b[0]);
      MovementInputInjective(a[0], a[0]);
      MovementInputInjective(b[0], b[0]);
      var ia, ib := MovementInput(a[0]), MovementInput(b[0]);
      assert Items(a)[..5] == ia && Items(b)[..5] == ib;
      assert Items(a)[5..] == Items(a[1..]) && Items(b)[5..] == Items(b[1..]);
      ItemsInjective(a[1..], b[1..]);
      assert a == [a[0]] + a[1..] && b == [b[0]] + b[1..];
    }
  }

  /** The hash input of a list of movements determines the list: the length
      prefix fixes the count and each movement fills five writes. */
  lemma MovementsInputInjective(a: seq<Movement>, b: seq<Movement>)
    ensures MovementsInput(a) == MovementsInput(b) <==> a == b
  {
    if MovementsInput(a) == MovementsInput(b) {
      assert MovementsInput(a)[0] == LengthPrefix(|a|);
      assert MovementsInput(b)[0] == LengthPrefix(|b|);
      assert MovementsInput(a)[1..] == Items(a) && MovementsInput(b)[1..] == Items(b);
      ItemsInjective(a, b);
    }
  }

  /** Hashing one more movement appends its input. */
  lemma {:induction false} ItemsAppend(ms: seq<Movement>, m: Movement)
    ensures Items(ms + [m]) == Items(ms) + MovementInput(m)
  {
    if ms == [] {
      assert [] + [m] == [m];
    } else {
      assert (ms + [m])[1..] == ms[1..] + [m];
      ItemsAppend(ms[1..], m);
    }
  }

  /** A hasher, seen as the sequence of writes it has been given. */
  class Hasher {
    var written: seq<HashWrite>

    constructor ()
      ensures written == []
    {
      written := [];
    }

    /** `Hasher::write_length_prefix` */
    method WriteLengthPrefix(len: nat)
      modifies this
      ensures written == old(written) + [LengthPrefix(len)]
    {
      written := written + [LengthPrefix(len)];
    }

    /** `Hasher::write` */
    method Write(bytes: seq<Byte>)
      modifies this
      ensures written == old(written) + [Bytes(bytes)]
    {
      written := written + [Bytes(bytes)];
    }

    /** `Hasher::write_u8` */
    method WriteU8(b: Byte)
      modifies this
      ensures written == old(written) + [U8(b)]
    {
      written := written + [U8(b)];
    }
  }

  /** `[u8; N]::hash` into `state`. */
  method HashByteArray(bytes: seq<Byte>, state: Hasher)
    modifies state
    ensures state.written == old(state.written) + ByteArrayInput(bytes)
  {
    state.WriteLengthPrefix(|bytes|);
    state.Write(bytes);
  }

  /** `Vec2D::hash`: x's little-endian bytes, then y's. */
  method HashVec2D(v: Vec2D, state: Hasher)
    modifies state
    ensures state.written == old(state.written) + Vec2DInput(v)
  {
    HashByteArray(LeBytes(v.x.bits), state);
    HashByteArray(LeBytes(v.y.bits), state);
  }

  /** The derived `Movement::hash`: the fields in declaration order. */
  method HashMovement(m: Movement, state: Hasher)
    modifies state
    ensures state.written == old(state.written) + MovementInput(m)
  {
    HashVec2D(m.dest, state);
    state.WriteU8(if m.penDown then 1 else 0);
  }

  /** `Vec<Movement>::hash`, as the job handler feeds a request's movements
      to its hasher: the length, then each movement in turn. */
  method HashMovements(ms: seq<Movement>, state: Hasher)
    modifies state
    ensures state.written == old(state.written) + MovementsInput(ms)
  {
    state.WriteLengthPrefix(|ms|);
    var i := 0;
    while i < |ms|
      invariant 0 <= i <= |ms|
      invariant state.written == old(state.written) + [LengthPrefix(|ms|)] + Items(ms[..i])
    {
      ItemsAppend(ms[..i], ms[i]);
      assert ms[..i + 1] == ms[..i] + [ms[i]];
      HashMovement(ms[i], state);
      i := i + 1;
    }
    assert ms[..i] == ms;
  }
}
