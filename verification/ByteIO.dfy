/** The writer and the reader that every codec is built from. */
module ByteIO {
  import opened Types
  import opened Octets
  import opened Identity

  /** Each method takes, as a ghost, the bytes that will follow what it writes, so
      that calls chain the way the `Put` functions nest. */
  class ByteWriter {
    var buf: Bytes

    constructor ()
      ensures buf == []
    {
      buf := [];
    }

    method U8(v: U8, ghost rest: Bytes)
      modifies this
      ensures buf + rest == old(buf) + PutU8(v, rest)
    {
      buf := buf + [v];
    }

    method U32(v: U32, ghost rest: Bytes)
      modifies this
      ensures buf + rest == old(buf) + PutU32(v, rest)
    {
      hide BigEndian;
      BigEndianQuad(v);
      buf := buf + [Shifted(v, 3) % 256];
      buf := buf + [Shifted(v, 2) % 256];
      buf := buf + [Shifted(v, 1) % 256];
      buf := buf + [v % 256];
    }

    method U64(v: U64, ghost rest: Bytes)
      modifies this
      ensures buf + rest == old(buf) + PutU64(v, rest)
    {
      ghost var written: Bytes := [];
      for i := 8 downto 0
        invariant written == BigEndian(Shifted(v, i), 8 - i)
        invariant buf == old(buf) + written
      {
        buf := buf + [Shifted(v, i) % 256];
        written := written + [Shifted(v, i) % 256];
      }
    }

    method I64(v: I64, ghost rest: Bytes)
      modifies this
      ensures buf + rest == old(buf) + PutI64(v, rest)
    {
      U64(Unsigned(v), rest);
    }

    method String(s: Bytes, ghost rest: Bytes)
      requires |s| <= ANY_LENGTH
      modifies this
      ensures buf + rest == old(buf) + PutString(s, rest)
    {
      hide PutU64;
      U64(|s|, s + rest);
      buf := buf + s;
    }

    method Raw(s: Bytes, ghost rest: Bytes)
      modifies this
      ensures buf + rest == old(buf) + (s + rest)
    {
      buf := buf + s;
    }

    method Device(d: Device, ghost rest: Bytes)
      modifies this
      ensures buf + rest == old(buf) + PutDevice(d, rest)
    {
      hide PutU8, PutU32, PutU64;
      ghost var r3 := PutU64(d.minMemory, rest);
      ghost var r2 := PutU32(d.minor, r3);
      U8(d.backend, PutU32(d.major, r2));
      U32(d.major, r2);
      U32(d.minor, r3);
      U64(d.minMemory, rest);
    }

    method Extensions(xs: seq<Bytes>, ghost rest: Bytes)
      requires AllFit(xs, ANY_LENGTH)
      modifies this
      ensures buf + rest == old(buf) + PutExtensions(xs, rest)
    {
      hide PutU32, PutString;
      U32(|xs| % 0x1_0000_0000, PutStrings(xs, rest));
      for i := 0 to |xs|
        invariant buf + PutStrings(xs[i..], rest) == old(buf) + PutExtensions(xs, rest)
      {
        assert xs[i..][1..] == xs[i + 1..];
        String(xs[i], PutStrings(xs[i + 1..], rest));
      }
    }

    /** write_descriptor and write_desc, field by field. */
    method Descriptor(d: Descriptor, ghost rest: Bytes)
      requires Sized(d)
      modifies this
      ensures buf + rest == old(buf) + PutDescriptor(d, rest)
    {
      hide PutU8, PutString, PutDevice, PutExtensions;
      ghost var r10 := PutExtensions(d.extensions, rest);
      ghost var r9 := PutString(d.sampling, r10);
      ghost var r8 := PutString(d.shape, r9);
      ghost var r7 := PutDevice(d.device, r8);
      ghost var r6 := PutU8(d.mode, r7);
      ghost var r5 := PutU8(d.backend, r6);
      ghost var r4 := PutU8(d.dtype, r5);
      ghost var r3 := PutU8(d.phase, r4);
      ghost var r2 := PutString(d.tokenizer, r3);
      ghost var r1 := PutString(d.adapter, r2);
      ghost var r0 := PutString(d.revision, r1);
      U8(1, PutString(d.model, r0));
      String(d.model, r0);
      String(d.revision, r1);
      String(d.adapter, r2);
      String(d.tokenizer, r3);
      U8(d.phase, r4);
      U8(d.dtype, r5);
      U8(d.backend, r6);
      U8(d.mode, r7);
      Device(d.device, r8);
      String(d.shape, r9);
      String(d.sampling, r10);
      Extensions(d.extensions, rest);
    }
  }

  lemma BigEndianQuad(v: U32)
    ensures BigEndian(v, 4) == [Shifted(v, 3) % 256, Shifted(v, 2) % 256, Shifted(v, 1) % 256, v % 256]
  {
    assert Shifted(v, 3) == Shifted(v, 2) / 256 && Shifted(v, 2) == Shifted(v, 1) / 256 && Shifted(v, 1) == v / 256;
    assert BigEndian(Shifted(v, 3), 1) == [Shifted(v, 3) % 256];
    assert BigEndian(Shifted(v, 2), 2) == [Shifted(v, 3) % 256, Shifted(v, 2) % 256];
    assert BigEndian(Shifted(v, 1), 3) == [Shifted(v, 3) % 256, Shifted(v, 2) % 256, Shifted(v, 1) % 256];
  }

  function Quad(b0: nat, b1: nat, b2: nat, b3: nat): nat { ((b0 * 256 + b1) * 256 + b2) * 256 + b3 }

  lemma ValueQuad(b: Bytes)
    requires |b| == 4
    ensures Value(b) == Quad(b[0], b[1], b[2], b[3])
  {
    assert b[..3][..2] == b[..2] && b[..2][..1] == b[..1];
    assert Value(b[..1]) == b[0] by { assert b[..1][..0] == []; }
    var b0: nat := b[0];
    assert Value(b[..2]) == b0 * 256 + b[1];
    assert Value(b[..3]) == (b0 * 256 + b[1]) * 256 + b[2];
  }

  /** Every read checks the bounds first. */
  class ByteReader {
    const data: Bytes
    var pos: nat

    constructor (data: Bytes)
      ensures Valid() && Rest() == data
    {
      this.data := data;
      pos := 0;
    }

    ghost predicate Valid()
      reads this
    {
      pos <= |data|
    }

    /** What is still to be read. */
    ghost function Rest(): Bytes
      requires Valid()
      reads this
    {
      data[pos..]
    }

    /** A read that did what `spec` says: the same value and the same remainder, or
        the same failure. */
    ghost predicate Took<T>(spec: Option<(T, Bytes)>, r: Option<T>)
      reads this
    {
      && Valid() && (spec.Some? <==> r.Some?)
      && (r.Some? ==> spec.value == (r.value, Rest()))
    }

    method U8() returns (r: Option<U8>)
      requires Valid()
      modifies this
      ensures Took(GetU8(old(Rest())), r)
    {
      if pos + 1 > |data| { return None; }
      r := Some(data[pos]);
      pos := pos + 1;
    }

    method U32() returns (r: Option<U32>)
      requires Valid()
      modifies this
      ensures Took(GetU32(old(Rest())), r)
    {
      hide Value, Pow256;
      if pos + 4 > |data| { return None; }
      ValueQuad(data[pos..pos + 4]);
      assert Rest()[..4] == data[pos..pos + 4] && Rest()[4..] == data[pos + 4..];
      r := Some(Quad(data[pos], data[pos + 1], data[pos + 2], data[pos + 3]));
      pos := pos + 4;
    }

    method U64() returns (r: Option<U64>)
      requires Valid()
      modifies this
      ensures Took(GetU64(old(Rest())), r)
    {
      if pos + 8 > |data| { return None; }
      var v: nat := 0;
      for i := 0 to 8
        invariant v == Value(data[pos..pos + i]) && pos == old(pos)
      {
        assert data[pos..pos + i + 1][..i] == data[pos..pos + i];
        v := v * 256 + data[pos + i];
      }
      hide Value, Pow256;
      Pow256Values();
      assert Rest()[..8] == data[pos..pos + 8] && Rest()[8..] == data[pos + 8..];
      r := Some(v);
      pos := pos + 8;
    }

    method I64() returns (r: Option<I64>)
      requires Valid()
      modifies this
      ensures Took(GetI64(old(Rest())), r)
    {
      hide GetU64;
      var u :- U64();
      r := Some(Signed(u));
    }

    method String(limit: nat) returns (r: Option<Bytes>)
      requires Valid()
      modifies this
      ensures Took(GetString(old(Rest()), limit), r)
    {
      hide GetU64;
      var n :- U64();
      if n > limit || n > |data| - pos { return None; }
      assert Rest()[..n] == data[pos..pos + n] && Rest()[n..] == data[pos + n..];
      r := Some(data[pos..pos + n]);
      pos := pos + n;
    }

    method Device() returns (r: Option<Device>)
      requires Valid()
      modifies this
      ensures Took(GetDevice(old(Rest())), r)
    {
      hide GetU8, GetU32, GetU64;
      var backend :- U8();
      var major :- U32();
      var minor :- U32();
      var memory :- U64();
      r := Some(Types.Device(backend, major, minor, memory));
    }

    method Extensions() returns (r: Option<seq<Bytes>>)
      requires Valid()
      modifies this
      ensures Took(GetExtensions(old(Rest()), MAX_STRING), r)
    {
      hide GetU32, GetString;
      var n :- U32();
      if n > 1024 { return None; }
      var xs: seq<Bytes> := [];
      ghost var start := Rest();
      PrefixedNothing(GetStrings(start, n, MAX_STRING));
      for i := 0 to n
        invariant Valid() && GetStrings(start, n, MAX_STRING) == Prefixed(xs, GetStrings(Rest(), n - i, MAX_STRING))
      {
        var x :- String(MAX_STRING);
        PrefixedStep(xs, x, GetStrings(Rest(), n - i - 1, MAX_STRING));
        xs := xs + [x];
      }
      assert xs + [] == xs;
      r := Some(xs);
    }

    /** read_desc, field by field. */
    method Descriptor() returns (r: Option<Descriptor>)
      requires Valid()
      modifies this
      ensures Took(GetDescriptor(old(Rest())), r)
    {
      hide GetU8, GetString, GetDevice, GetExtensions;
      var version :- U8();
      if version != 1 { return None; }
      var model :- String(MAX_STRING);
      var revision :- String(MAX_STRING);
      var adapter :- String(MAX_STRING);
      var tokenizer :- String(MAX_STRING);
      var phase :- U8();
      var dtype :- U8();
      var backend :- U8();
      var mode :- U8();
      var device :- Device();
      var shape :- String(MAX_STRING);
      var sampling :- String(MAX_STRING);
      var extensions :- Extensions();
      r := Some(Types.Descriptor(model, revision, adapter, tokenizer, phase, dtype, backend, mode, device, shape, sampling, extensions));
    }
  }

  /** A list read so far in front of what the rest of the read gives. */
  function Prefixed<T>(xs: seq<T>, g: Option<(seq<T>, Bytes)>): Option<(seq<T>, Bytes)> {
    if g.None? then None else Some((xs + g.value.0, g.value.1))
  }

  lemma PrefixedNothing<T>(g: Option<(seq<T>, Bytes)>)
    ensures Prefixed([], g) == g
  {
    if g.Some? { assert [] + g.value.0 == g.value.0; }
  }

  lemma PrefixedStep<T>(xs: seq<T>, x: T, g: Option<(seq<T>, Bytes)>)
    ensures Prefixed(xs, Prefixed([x], g)) == Prefixed(xs + [x], g)
  {
    if g.Some? { assert xs + ([x] + g.value.0) == xs + [x] + g.value.0; }
  }
}
