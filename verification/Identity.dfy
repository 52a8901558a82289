/** The canonical byte form of a model descriptor, and the key built from it. */
module Identity {
  import opened Types
  import opened Octets
  import Sha256Spec

  const MAX_EXTENSIONS: nat := 1024

  /** The smallest limit that admits every string a 64-bit length can describe. */
  const ANY_LENGTH: nat := 0xffff_ffff_ffff_ffff

  datatype Traits = Traits(phase: U8, dtype: U8, backend: U8, mode: U8, device: Device)
  datatype Names = Names(model: Bytes, revision: Bytes, adapter: Bytes, tokenizer: Bytes)

  function NamesOf(d: Descriptor): Names { Names(d.model, d.revision, d.adapter, d.tokenizer) }

  function TraitsOf(d: Descriptor): Traits { Traits(d.phase, d.dtype, d.backend, d.mode, d.device) }

  function Assemble(n: Names, t: Traits, shape: Bytes, sampling: Bytes, extensions: seq<Bytes>): Descriptor {
    Descriptor(n.model, n.revision, n.adapter, n.tokenizer,
               t.phase, t.dtype, t.backend, t.mode, t.device, shape, sampling, extensions)
  }

  function PutNames(n: Names, rest: Bytes): Bytes {
    PutString(n.model, PutString(n.revision, PutString(n.adapter, PutString(n.tokenizer, rest))))
  }

  function GetNames(b: Bytes, limit: nat): Option<(Names, Bytes)> {
    var (model, b1) :- GetString(b, limit);
    var (revision, b2) :- GetString(b1, limit);
    var (adapter, b3) :- GetString(b2, limit);
    var (tokenizer, b4) :- GetString(b3, limit);
    Some((Names(model, revision, adapter, tokenizer), b4))
  }

  function PutTraits(t: Traits, rest: Bytes): Bytes {
    PutU8(t.phase, PutU8(t.dtype, PutU8(t.backend, PutU8(t.mode, PutDevice(t.device, rest)))))
  }

  function GetTraits(b: Bytes): Option<(Traits, Bytes)> {
    var (phase, b1) :- GetU8(b);
    var (dtype, b2) :- GetU8(b1);
    var (backend, b3) :- GetU8(b2);
    var (mode, b4) :- GetU8(b3);
    var (device, b5) :- GetDevice(b4);
    Some((Traits(phase, dtype, backend, mode, device), b5))
  }

  function PutDevice(d: Device, rest: Bytes): Bytes {
    PutU8(d.backend, PutU32(d.major, PutU32(d.minor, PutU64(d.minMemory, rest))))
  }

  function GetDevice(b: Bytes): Option<(Device, Bytes)> {
    var (backend, b1) :- GetU8(b);
    var (major, b2) :- GetU32(b1);
    var (minor, b3) :- GetU32(b2);
    var (memory, b4) :- GetU64(b3);
    Some((Device(backend, major, minor, memory), b4))
  }

  /** The number of extensions is written in 32 bits. */
  function PutExtensions(xs: seq<Bytes>, rest: Bytes): Bytes {
    PutU32(|xs| % 0x1_0000_0000, PutStrings(xs, rest))
  }

  function GetExtensions(b: Bytes, limit: nat): Option<(seq<Bytes>, Bytes)> {
    var (n, b1) :- GetU32(b);
    if n > MAX_EXTENSIONS then None else GetStrings(b1, n, limit)
  }

  /** The layout shared by the key, the wire and the persisted state. */
  function PutDescriptor(d: Descriptor, rest: Bytes): Bytes {
    PutU8(1, PutNames(NamesOf(d), PutTraits(TraitsOf(d),
      PutString(d.shape, PutString(d.sampling, PutExtensions(d.extensions, rest))))))
  }

  function GetDescriptor(b: Bytes): Option<(Descriptor, Bytes)> {
    var (version, b0) :- GetU8(b);
    if version != 1 then None else
    var (names, b1) :- GetNames(b0, MAX_STRING);
    var (traits, b2) :- GetTraits(b1);
    var (shape, b3) :- GetString(b2, MAX_STRING);
    var (sampling, b4) :- GetString(b3, MAX_STRING);
    var (extensions, b5) :- GetExtensions(b4, MAX_STRING);
    Some((Assemble(names, traits, shape, sampling, extensions), b5))
  }

  // ---- reading back ----

  predicate NamesFit(n: Names, limit: nat) {
    |n.model| <= limit && |n.revision| <= limit && |n.adapter| <= limit && |n.tokenizer| <= limit
  }

  lemma NamesRoundTrip(n: Names, rest: Bytes, limit: nat)
    requires NamesFit(n, limit) && limit <= ANY_LENGTH
    ensures GetNames(PutNames(n, rest), limit) == Some((n, rest))
  {
    hide PutString, GetString;
    var r4 := PutString(n.tokenizer, rest);
    var r3 := PutString(n.adapter, r4);
    var r2 := PutString(n.revision, r3);
    StringRoundTrip(n.model, r2, limit);
    StringRoundTrip(n.revision, r3, limit);
    StringRoundTrip(n.adapter, r4, limit);
    StringRoundTrip(n.tokenizer, rest, limit);
  }

  lemma NamesCanonical(b: Bytes, limit: nat)
    requires GetNames(b, limit).Some?
    ensures b == PutNames(GetNames(b, limit).value.0, GetNames(b, limit).value.1)
    ensures NamesFit(GetNames(b, limit).value.0, limit)
  {
    hide PutString, GetString;
    StringCanonical(b, limit);
    var b1 := GetString(b, limit).value.1;
    StringCanonical(b1, limit);
    var b2 := GetString(b1, limit).value.1;
    StringCanonical(b2, limit);
    StringCanonical(GetString(b2, limit).value.1, limit);
  }

  lemma DeviceRoundTrip(d: Device, rest: Bytes)
    ensures GetDevice(PutDevice(d, rest)) == Some((d, rest))
  {
    hide PutU8, GetU8, PutU32, GetU32, PutU64, GetU64;
    var r3 := PutU64(d.minMemory, rest);
    var r2 := PutU32(d.minor, r3);
    U8RoundTrip(d.backend, PutU32(d.major, r2));
    U32RoundTrip(d.major, r2);
    U32RoundTrip(d.minor, r3);
    U64RoundTrip(d.minMemory, rest);
  }

  lemma DeviceCanonical(b: Bytes)
    requires GetDevice(b).Some?
    ensures b == PutDevice(GetDevice(b).value.0, GetDevice(b).value.1)
  {
    hide PutU8, GetU8, PutU32, GetU32, PutU64, GetU64;
    U8Canonical(b);
    var b1 := GetU8(b).value.1;
    U32Canonical(b1);
    var b2 := GetU32(b1).value.1;
    U32Canonical(b2);
    U64Canonical(GetU32(b2).value.1);
  }

  lemma TraitsRoundTrip(t: Traits, rest: Bytes)
    ensures GetTraits(PutTraits(t, rest)) == Some((t, rest))
  {
    hide PutU8, GetU8, PutDevice, GetDevice;
    var r4 := PutDevice(t.device, rest);
    var r3 := PutU8(t.mode, r4);
    var r2 := PutU8(t.backend, r3);
    U8RoundTrip(t.phase, PutU8(t.dtype, r2));
    U8RoundTrip(t.dtype, r2);
    U8RoundTrip(t.backend, r3);
    U8RoundTrip(t.mode, r4);
    DeviceRoundTrip(t.device, rest);
  }

  lemma TraitsCanonical(b: Bytes)
    requires GetTraits(b).Some?
    ensures b == PutTraits(GetTraits(b).value.0, GetTraits(b).value.1)
  {
    hide PutU8, GetU8, PutDevice, GetDevice;
    U8Canonical(b);
    var b1 := GetU8(b).value.1;
    U8Canonical(b1);
    var b2 := GetU8(b1).value.1;
    U8Canonical(b2);
    var b3 := GetU8(b2).value.1;
    U8Canonical(b3);
    DeviceCanonical(GetU8(b3).value.1);
  }

  predicate AllFit(xs: seq<Bytes>, limit: nat) { forall x :: x in xs ==> |x| <= limit }

  lemma ExtensionsRoundTrip(xs: seq<Bytes>, rest: Bytes, limit: nat)
    requires |xs| <= MAX_EXTENSIONS && AllFit(xs, limit) && limit <= ANY_LENGTH
    ensures GetExtensions(PutExtensions(xs, rest), limit) == Some((xs, rest))
  {
    hide PutU32, GetU32, PutStrings, GetStrings;
    assert |xs| % 0x1_0000_0000 == |xs|;
    U32RoundTrip(|xs|, PutStrings(xs, rest));
    StringsRoundTrip(xs, rest, limit);
  }

  lemma ExtensionsCanonical(b: Bytes, limit: nat)
    requires GetExtensions(b, limit).Some?
    ensures b == PutExtensions(GetExtensions(b, limit).value.0, GetExtensions(b, limit).value.1)
    ensures |GetExtensions(b, limit).value.0| <= MAX_EXTENSIONS && AllFit(GetExtensions(b, limit).value.0, limit)
  {
    hide PutU32, GetU32, PutStrings, GetStrings;
    U32Canonical(b);
    var (n, b1) := GetU32(b).value;
    StringsCanonical(b1, n, limit);
    assert n % 0x1_0000_0000 == n;
  }

  /** The reader's limits on strings and extensions. */
  predicate Readable(d: Descriptor) {
    && NamesFit(NamesOf(d), MAX_STRING) && |d.shape| <= MAX_STRING && |d.sampling| <= MAX_STRING
    && |d.extensions| <= MAX_EXTENSIONS && AllFit(d.extensions, MAX_STRING)
  }

  lemma DescriptorRoundTrip(d: Descriptor, rest: Bytes)
    requires Readable(d)
    ensures GetDescriptor(PutDescriptor(d, rest)) == Some((d, rest))
  {
    hide PutU8, GetU8, PutNames, GetNames, PutTraits, GetTraits, PutString, GetString, PutExtensions, GetExtensions, NamesFit, AllFit;
    var r4 := PutExtensions(d.extensions, rest);
    var r3 := PutString(d.sampling, r4);
    var r2 := PutString(d.shape, r3);
    var r1 := PutTraits(TraitsOf(d), r2);
    U8RoundTrip(1, PutNames(NamesOf(d), r1));
    NamesRoundTrip(NamesOf(d), r1, MAX_STRING);
    TraitsRoundTrip(TraitsOf(d), r2);
    StringRoundTrip(d.shape, r3, MAX_STRING);
    StringRoundTrip(d.sampling, r4, MAX_STRING);
    ExtensionsRoundTrip(d.extensions, rest, MAX_STRING);
  }

  lemma DescriptorCanonical(b: Bytes)
    requires GetDescriptor(b).Some?
    ensures b == PutDescriptor(GetDescriptor(b).value.0, GetDescriptor(b).value.1)
    ensures Readable(GetDescriptor(b).value.0)
  {
    hide PutU8, GetU8, PutNames, GetNames, PutTraits, GetTraits, PutString, GetString, PutExtensions, GetExtensions, NamesFit, AllFit;
    U8Canonical(b);
    var b0 := GetU8(b).value.1;
    NamesCanonical(b0, MAX_STRING);
    var b1 := GetNames(b0, MAX_STRING).value.1;
    TraitsCanonical(b1);
    var b2 := GetTraits(b1).value.1;
    StringCanonical(b2, MAX_STRING);
    var b3 := GetString(b2, MAX_STRING).value.1;
    StringCanonical(b3, MAX_STRING);
    ExtensionsCanonical(GetString(b3, MAX_STRING).value.1, MAX_STRING);
  }

  lemma DeviceAppend(d: Device, a: Bytes, b: Bytes)
    ensures PutDevice(d, a + b) == PutDevice(d, a) + b
  {
    hide PutInt, PutU8;
    var a3 := PutU64(d.minMemory, a);
    var a2 := PutU32(d.minor, a3);
    IntAppend(d.minMemory, 8, a, b);
    IntAppend(d.minor, 4, a3, b);
    IntAppend(d.major, 4, a2, b);
    U8Append(d.backend, PutU32(d.major, a2), b);
  }

  lemma TraitsAppend(t: Traits, a: Bytes, b: Bytes)
    ensures PutTraits(t, a + b) == PutTraits(t, a) + b
  {
    hide PutDevice, PutU8;
    var a4 := PutDevice(t.device, a);
    var a3 := PutU8(t.mode, a4);
    var a2 := PutU8(t.backend, a3);
    DeviceAppend(t.device, a, b);
    U8Append(t.mode, a4, b);
    U8Append(t.backend, a3, b);
    U8Append(t.dtype, a2, b);
    U8Append(t.phase, PutU8(t.dtype, a2), b);
  }

  lemma NamesAppend(n: Names, a: Bytes, b: Bytes)
    ensures PutNames(n, a + b) == PutNames(n, a) + b
  {
    hide PutString;
    var a3 := PutString(n.tokenizer, a);
    var a2 := PutString(n.adapter, a3);
    StringAppend(n.tokenizer, a, b);
    StringAppend(n.adapter, a3, b);
    StringAppend(n.revision, a2, b);
    StringAppend(n.model, PutString(n.revision, a2), b);
  }

  lemma DescriptorAppend(d: Descriptor, a: Bytes, b: Bytes)
    ensures PutDescriptor(d, a + b) == PutDescriptor(d, a) + b
  {
    hide PutU8, PutNames, PutTraits, PutString, PutStrings, PutInt;
    var a5 := PutStrings(d.extensions, a);
    var a4 := PutExtensions(d.extensions, a);
    var a3 := PutString(d.sampling, a4);
    var a2 := PutString(d.shape, a3);
    var a1 := PutTraits(TraitsOf(d), a2);
    StringsAppend(d.extensions, a, b);
    IntAppend(|d.extensions| % 0x1_0000_0000, 4, a5, b);
    StringAppend(d.sampling, a4, b);
    StringAppend(d.shape, a3, b);
    TraitsAppend(TraitsOf(d), a2, b);
    NamesAppend(NamesOf(d), a1, b);
    U8Append(1, PutNames(NamesOf(d), a1), b);
  }

  // ---- the compatibility key ----

  function Preimage(d: Descriptor): Bytes { PutDescriptor(d, []) }

  /** CompatibilityKey::build. */
  function KeyOf(d: Descriptor): Key { Sha256Spec.Digest(Preimage(d)) }

  /** Lengths that a C++ string can have. */
  predicate Sized(d: Descriptor) {
    && NamesFit(NamesOf(d), ANY_LENGTH) && |d.shape| <= ANY_LENGTH && |d.sampling| <= ANY_LENGTH
    && AllFit(d.extensions, ANY_LENGTH)
  }

  lemma {:induction false} StringsInjective(xs: seq<Bytes>, ys: seq<Bytes>)
    requires AllFit(xs, ANY_LENGTH) && AllFit(ys, ANY_LENGTH) && PutStrings(xs, []) == PutStrings(ys, [])
    ensures xs == ys
  {
    hide PutString, GetString;
    if xs != [] { NonEmptyString(xs[0], PutStrings(xs[1..], [])); }
    if ys != [] { NonEmptyString(ys[0], PutStrings(ys[1..], [])); }
    if xs != [] && ys != [] {
      StringRoundTrip(xs[0], PutStrings(xs[1..], []), ANY_LENGTH);
      StringRoundTrip(ys[0], PutStrings(ys[1..], []), ANY_LENGTH);
      StringsInjective(xs[1..], ys[1..]);
      assert xs == [xs[0]] + xs[1..] && ys == [ys[0]] + ys[1..];
    }
  }

  lemma NonEmptyString(s: Bytes, rest: Bytes)
    ensures PutString(s, rest) != []
  {
  }

  /** The key preimage determines the descriptor. The count of extensions is cut to
      32 bits, but the list comes last and each entry delimits itself, so even that
      costs nothing. */
  lemma PreimageInjective(a: Descriptor, b: Descriptor)
    requires Sized(a) && Sized(b) && Preimage(a) == Preimage(b)
    ensures a == b
  {
    hide PutU8, GetU8, PutNames, GetNames, PutTraits, GetTraits, PutString, GetString, PutU32, GetU32, NamesFit, AllFit, PutStrings;
    PeelPreimage(a);
    PeelPreimage(b);
    StringsInjective(a.extensions, b.extensions);
  }

  /** Each part of the preimage can be read off the front. */
  lemma PeelPreimage(a: Descriptor)
    requires Sized(a)
    ensures GetU8(Preimage(a)).Some? && GetNames(GetU8(Preimage(a)).value.1, ANY_LENGTH).Some?
    ensures var (n, b1) := GetNames(GetU8(Preimage(a)).value.1, ANY_LENGTH).value;
            && n == NamesOf(a) && GetTraits(b1).Some?
            && var (t, b2) := GetTraits(b1).value;
               && t == TraitsOf(a) && GetString(b2, ANY_LENGTH).Some?
               && var (shape, b3) := GetString(b2, ANY_LENGTH).value;
                  && shape == a.shape && GetString(b3, ANY_LENGTH).Some?
                  && var (sampling, b4) := GetString(b3, ANY_LENGTH).value;
                     && sampling == a.sampling && GetU32(b4).Some? && GetU32(b4).value.1 == PutStrings(a.extensions, [])
  {
    hide PutU8, GetU8, PutNames, GetNames, PutTraits, GetTraits, PutString, GetString, PutU32, GetU32, NamesFit, AllFit, PutStrings;
    var r4 := PutExtensions(a.extensions, []);
    var r3 := PutString(a.sampling, r4);
    var r2 := PutString(a.shape, r3);
    var r1 := PutTraits(TraitsOf(a), r2);
    U8RoundTrip(1, PutNames(NamesOf(a), r1));
    NamesRoundTrip(NamesOf(a), r1, ANY_LENGTH);
    TraitsRoundTrip(TraitsOf(a), r2);
    StringRoundTrip(a.shape, r3, ANY_LENGTH);
    StringRoundTrip(a.sampling, r4, ANY_LENGTH);
    U32RoundTrip(|a.extensions| % 0x1_0000_0000, PutStrings(a.extensions, []));
  }
}
