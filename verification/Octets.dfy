/** Big-endian primitives. `PutX(x, rest)` is the encoding of `x` followed by
    `rest`; `GetX(b)` is the value at the front of `b` and what follows it. */
module Octets {
  import opened Types

  function Pow256(n: nat): nat { if n == 0 then 1 else 256 * Pow256(n - 1) }

  lemma Pow256Values()
    ensures Pow256(4) == 0x1_0000_0000 && Pow256(8) == 0x1_0000_0000_0000_0000
  {
    assert Pow256(2) == 0x1_0000;
    assert Pow256(4) == 256 * 256 * Pow256(2);
    assert Pow256(6) == 256 * 256 * Pow256(4);
    assert Pow256(8) == 256 * 256 * Pow256(6);
  }

  /** The low `n` bytes of `v`, most significant first. */
  function BigEndian(v: nat, n: nat): (b: Bytes)
    ensures |b| == n
  {
    if n == 0 then [] else BigEndian(v / 256, n - 1) + [v % 256]
  }

  /** `v >> 8 * k`. */
  function Shifted(v: nat, k: nat): nat { if k == 0 then v else Shifted(v, k - 1) / 256 }

  /** The loop that emits one shifted byte after another. */
  method Emit(v: U64, n: nat) returns (b: Bytes)
    ensures b == BigEndian(v, n)
  {
    b := [];
    for i := 0 to n
      invariant b == BigEndian(Shifted(v, n - i), i)
    {
      b := b + [Shifted(v, n - 1 - i) % 256];
    }
  }

  function Value(b: Bytes): (v: nat)
    ensures v < Pow256(|b|)
  {
    if b == [] then 0 else Value(b[..|b| - 1]) * 256 + b[|b| - 1]
  }

  lemma {:induction false} ValueOfBigEndian(v: nat, n: nat)
    requires v < Pow256(n)
    ensures Value(BigEndian(v, n)) == v
  {
    if n > 0 {
      ValueOfBigEndian(v / 256, n - 1);
      var b := BigEndian(v, n);
      assert b[..n - 1] == BigEndian(v / 256, n - 1) && b[n - 1] == v % 256;
    }
  }

  lemma {:induction false} BigEndianOfValue(b: Bytes)
    ensures BigEndian(Value(b), |b|) == b
  {
    if b != [] {
      var n := |b| - 1;
      BigEndianOfValue(b[..n]);
      assert Value(b) / 256 == Value(b[..n]) && Value(b) % 256 == b[n];
      assert b == b[..n] + [b[n]];
    }
  }

  // ---- fixed-width integers ----

  function PutInt(v: nat, n: nat, rest: Bytes): Bytes { BigEndian(v, n) + rest }

  function GetInt(b: Bytes, n: nat): (r: Option<(nat, Bytes)>)
    ensures r.Some? ==> r.value.0 < Pow256(n) && |r.value.1| + n == |b|
  {
    if |b| < n then None else Some((Value(b[..n]), b[n..]))
  }

  lemma IntRoundTrip(v: nat, n: nat, rest: Bytes)
    requires v < Pow256(n)
    ensures GetInt(PutInt(v, n, rest), n) == Some((v, rest))
  {
    hide Value, BigEndian, Pow256;
    var b := PutInt(v, n, rest);
    assert b[..n] == BigEndian(v, n) && b[n..] == rest;
    ValueOfBigEndian(v, n);
  }

  lemma IntCanonical(b: Bytes, n: nat)
    requires GetInt(b, n).Some?
    ensures b == PutInt(GetInt(b, n).value.0, n, GetInt(b, n).value.1)
  {
    hide Value, BigEndian, Pow256;
    BigEndianOfValue(b[..n]);
    assert b == b[..n] + b[n..];
  }

  function PutU8(v: U8, rest: Bytes): Bytes { [v] + rest }

  function GetU8(b: Bytes): Option<(U8, Bytes)> { if b == [] then None else Some((b[0], b[1..])) }

  function PutU32(v: U32, rest: Bytes): Bytes { PutInt(v, 4, rest) }

  function GetU32(b: Bytes): Option<(U32, Bytes)> {
    var (v, b1) :- GetInt(b, 4);
    Pow256Values();
    Some((v, b1))
  }

  function PutU64(v: nat, rest: Bytes): Bytes { PutInt(v, 8, rest) }

  function GetU64(b: Bytes): Option<(U64, Bytes)> {
    var (v, b1) :- GetInt(b, 8);
    Pow256Values();
    Some((v, b1))
  }

  /** The cast between std::int64_t and std::uint64_t. */
  function Unsigned(v: I64): U64 { if v < 0 then v + 0x1_0000_0000_0000_0000 else v }

  function Signed(v: U64): I64 { if v < 0x8000_0000_0000_0000 then v else v - 0x1_0000_0000_0000_0000 }

  function PutI64(v: I64, rest: Bytes): Bytes { PutU64(Unsigned(v), rest) }

  function GetI64(b: Bytes): Option<(I64, Bytes)> {
    var (v, b1) :- GetU64(b);
    Some((Signed(v), b1))
  }

  lemma U8RoundTrip(v: U8, rest: Bytes)
    ensures GetU8(PutU8(v, rest)) == Some((v, rest))
  {
  }

  lemma U8Canonical(b: Bytes)
    requires GetU8(b).Some?
    ensures b == PutU8(GetU8(b).value.0, GetU8(b).value.1)
  {
  }

  lemma U32RoundTrip(v: U32, rest: Bytes)
    ensures GetU32(PutU32(v, rest)) == Some((v, rest))
  {
    Pow256Values();
    IntRoundTrip(v, 4, rest);
  }

  lemma U32Canonical(b: Bytes)
    requires GetU32(b).Some?
    ensures b == PutU32(GetU32(b).value.0, GetU32(b).value.1)
  {
    IntCanonical(b, 4);
  }

  lemma U64RoundTrip(v: nat, rest: Bytes)
    requires v < 0x1_0000_0000_0000_0000
    ensures GetU64(PutU64(v, rest)) == Some((v, rest))
  {
    Pow256Values();
    IntRoundTrip(v, 8, rest);
  }

  lemma U64Canonical(b: Bytes)
    requires GetU64(b).Some?
    ensures b == PutU64(GetU64(b).value.0, GetU64(b).value.1)
  {
    IntCanonical(b, 8);
  }

  lemma I64RoundTrip(v: I64, rest: Bytes)
    ensures GetI64(PutI64(v, rest)) == Some((v, rest))
  {
    hide PutU64, GetU64;
    U64RoundTrip(Unsigned(v), rest);
  }

  lemma I64Canonical(b: Bytes)
    requires GetI64(b).Some?
    ensures b == PutI64(GetI64(b).value.0, GetI64(b).value.1)
  {
    hide PutU64, GetU64;
    U64Canonical(b);
  }

  // ---- strings and lists ----

  const MAX_STRING: nat := 0x10_0000

  /** A 64-bit length and the raw bytes. */
  function PutString(s: Bytes, rest: Bytes): Bytes { PutU64(|s|, s + rest) }

  function GetString(b: Bytes, limit: nat): Option<(Bytes, Bytes)> {
    var (n, b1) :- GetU64(b);
    if n > limit || n > |b1| then None else Some((b1[..n], b1[n..]))
  }

  lemma StringRoundTrip(s: Bytes, rest: Bytes, limit: nat)
    requires |s| <= limit && |s| < 0x1_0000_0000_0000_0000
    ensures GetString(PutString(s, rest), limit) == Some((s, rest))
  {
    hide PutU64, GetU64;
    U64RoundTrip(|s|, s + rest);
    assert (s + rest)[..|s|] == s && (s + rest)[|s|..] == rest;
  }

  lemma StringCanonical(b: Bytes, limit: nat)
    requires GetString(b, limit).Some?
    ensures b == PutString(GetString(b, limit).value.0, GetString(b, limit).value.1)
    ensures |GetString(b, limit).value.0| <= limit
  {
    hide PutU64, GetU64;
    U64Canonical(b);
    var (n, b1) := GetU64(b).value;
    assert b1 == b1[..n] + b1[n..];
  }

  function PutStrings(xs: seq<Bytes>, rest: Bytes): Bytes {
    if xs == [] then rest else PutString(xs[0], PutStrings(xs[1..], rest))
  }

  function GetStrings(b: Bytes, n: nat, limit: nat): Option<(seq<Bytes>, Bytes)> {
    if n == 0 then Some(([], b)) else
    var (x, b1) :- GetString(b, limit);
    var (xs, b2) :- GetStrings(b1, n - 1, limit);
    Some(([x] + xs, b2))
  }

  lemma {:induction false} StringsRoundTrip(xs: seq<Bytes>, rest: Bytes, limit: nat)
    requires limit < 0x1_0000_0000_0000_0000 && forall x :: x in xs ==> |x| <= limit
    ensures GetStrings(PutStrings(xs, rest), |xs|, limit) == Some((xs, rest))
  {
    hide PutString, GetString;
    if xs != [] {
      assert xs == [xs[0]] + xs[1..];
      StringRoundTrip(xs[0], PutStrings(xs[1..], rest), limit);
      StringsRoundTrip(xs[1..], rest, limit);
    }
  }

  lemma {:induction false} StringsCanonical(b: Bytes, n: nat, limit: nat)
    requires GetStrings(b, n, limit).Some?
    ensures var (xs, rest) := GetStrings(b, n, limit).value;
            b == PutStrings(xs, rest) && |xs| == n && forall x :: x in xs ==> |x| <= limit
    decreases n
  {
    hide PutString, GetString;
    if n > 0 {
      StringCanonical(b, limit);
      var (x, b1) := GetString(b, limit).value;
      StringsCanonical(b1, n - 1, limit);
      var (xs, b2) := GetStrings(b1, n - 1, limit).value;
      assert ([x] + xs)[1..] == xs;
    }
  }

  /** Identifiers one after another. */
  function PutIds(xs: seq<Id>, rest: Bytes): Bytes {
    if xs == [] then rest else PutU64(xs[0], PutIds(xs[1..], rest))
  }

  function GetIds(b: Bytes, n: nat): Option<(seq<U64>, Bytes)> {
    if n == 0 then Some(([], b)) else
    var (x, b1) :- GetU64(b);
    var (xs, b2) :- GetIds(b1, n - 1);
    Some(([x] + xs, b2))
  }

  lemma {:induction false} IdsRoundTrip(xs: seq<Id>, rest: Bytes)
    requires forall x :: x in xs ==> x < 0x1_0000_0000_0000_0000
    ensures GetIds(PutIds(xs, rest), |xs|) == Some((xs, rest))
  {
    hide PutU64, GetU64;
    if xs != [] {
      assert xs == [xs[0]] + xs[1..] && xs[0] in xs && forall x :: x in xs[1..] ==> x in xs;
      U64RoundTrip(xs[0], PutIds(xs[1..], rest));
      IdsRoundTrip(xs[1..], rest);
    }
  }

  lemma {:induction false} IdsCanonical(b: Bytes, n: nat)
    requires GetIds(b, n).Some?
    ensures b == PutIds(GetIds(b, n).value.0, GetIds(b, n).value.1) && |GetIds(b, n).value.0| == n
    decreases n
  {
    hide PutU64, GetU64;
    if n > 0 {
      U64Canonical(b);
      var (x, b1) := GetU64(b).value;
      IdsCanonical(b1, n - 1);
      var (xs, b2) := GetIds(b1, n - 1).value;
      assert ([x] + xs)[1..] == xs;
    }
  }

  // ---- what is written does not depend on what follows ----

  lemma StringAppend(s: Bytes, a: Bytes, b: Bytes)
    ensures PutString(s, a + b) == PutString(s, a) + b
  {
    assert s + (a + b) == (s + a) + b;
  }

  lemma {:induction false} StringsAppend(xs: seq<Bytes>, a: Bytes, b: Bytes)
    ensures PutStrings(xs, a + b) == PutStrings(xs, a) + b
  {
    hide PutString;
    if xs != [] {
      StringsAppend(xs[1..], a, b);
      StringAppend(xs[0], PutStrings(xs[1..], a), b);
    }
  }

  lemma U8Append(v: U8, a: Bytes, b: Bytes)
    ensures PutU8(v, a + b) == PutU8(v, a) + b
  {
    assert [v] + (a + b) == ([v] + a) + b;
  }

  lemma IntAppend(v: nat, n: nat, a: Bytes, b: Bytes)
    ensures PutInt(v, n, a + b) == PutInt(v, n, a) + b
  {
    hide BigEndian;
    assert BigEndian(v, n) + (a + b) == (BigEndian(v, n) + a) + b;
  }

  lemma {:induction false} IdsAppend(xs: seq<Id>, a: Bytes, b: Bytes)
    ensures PutIds(xs, a + b) == PutIds(xs, a) + b
  {
    hide PutInt;
    if xs != [] {
      IdsAppend(xs[1..], a, b);
      IntAppend(xs[0], 8, PutIds(xs[1..], a), b);
    }
  }

  // ---- lists of records ----

  function PutList<T>(put: (T, Bytes) -> Bytes, xs: seq<T>, rest: Bytes): Bytes {
    if xs == [] then rest else put(xs[0], PutList(put, xs[1..], rest))
  }

  function GetList<T>(get: Bytes -> Option<(T, Bytes)>, b: Bytes, n: nat): Option<(seq<T>, Bytes)>
    decreases n
  {
    if n == 0 then Some(([], b)) else
    var (x, b1) :- get(b);
    var (xs, b2) :- GetList(get, b1, n - 1);
    Some(([x] + xs, b2))
  }

  /** `get` undoes `put` on the values that are `ok`. */
  ghost predicate Undoes<T(!new)>(put: (T, Bytes) -> Bytes, get: Bytes -> Option<(T, Bytes)>, ok: T -> bool) {
    forall x, rest :: ok(x) ==> get(put(x, rest)) == Some((x, rest))
  }

  /** `get` accepts nothing but what `put` writes. */
  ghost predicate Strict<T>(put: (T, Bytes) -> Bytes, get: Bytes -> Option<(T, Bytes)>, ok: T -> bool) {
    forall b :: get(b).Some? ==> ok(get(b).value.0) && b == put(get(b).value.0, get(b).value.1)
  }

  lemma {:induction false} ListRoundTrip<T(!new)>(
    put: (T, Bytes) -> Bytes, get: Bytes -> Option<(T, Bytes)>, ok: T -> bool, xs: seq<T>, rest: Bytes)
    requires Undoes(put, get, ok) && forall x :: x in xs ==> ok(x)
    ensures GetList(get, PutList(put, xs, rest), |xs|) == Some((xs, rest))
  {
    if xs != [] {
      assert xs == [xs[0]] + xs[1..] && xs[0] in xs;
      ListRoundTrip(put, get, ok, xs[1..], rest);
    }
  }

  lemma {:induction false} ListCanonical<T(!new)>(
    put: (T, Bytes) -> Bytes, get: Bytes -> Option<(T, Bytes)>, ok: T -> bool, b: Bytes, n: nat)
    requires Strict(put, get, ok) && GetList(get, b, n).Some?
    ensures var (xs, rest) := GetList(get, b, n).value;
            b == PutList(put, xs, rest) && |xs| == n && forall x :: x in xs ==> ok(x)
    decreases n
  {
    if n > 0 {
      var (x, b1) := get(b).value;
      ListCanonical(put, get, ok, b1, n - 1);
      var (xs, b2) := GetList(get, b1, n - 1).value;
      assert ([x] + xs)[1..] == xs;
    }
  }

  lemma {:induction false} ListAppend<T(!new)>(put: (T, Bytes) -> Bytes, xs: seq<T>, a: Bytes, b: Bytes)
    requires forall x: T, a, b :: put(x, a + b) == put(x, a) + b
    ensures PutList(put, xs, a + b) == PutList(put, xs, a) + b
  {
    if xs != [] { ListAppend(put, xs[1..], a, b); }
  }

  /** A message fills its bytes to the end. */
  function Whole<T>(g: Option<(T, Bytes)>): Option<T> {
    if g.Some? && g.value.1 == [] then Some(g.value.0) else None
  }
}
