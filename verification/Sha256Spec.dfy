/** SHA-256 as FIPS 180-4 defines it, for messages that are whole bytes. */
module Sha256Spec {
  import opened Types
  import opened Octets

  type Word = bv32

  /** The eight working variables. */
  datatype Vars = Vars(a: Word, b: Word, c: Word, d: Word, e: Word, f: Word, g: Word, h: Word)

  /** Section 3.2: addition modulo 2^32. */
  function Plus(x: Word, y: Word): Word { x + y }

  // ---- section 4.1.2: functions ----

  function Rotr(x: Word, n: bv6): Word
    requires 0 < n < 32
  {
    (x >> n) | (x << (32 - n))
  }

  function Shr(x: Word, n: bv6): Word
    requires n < 32
  {
    x >> n
  }

  function Ch(x: Word, y: Word, z: Word): Word { (x & y) ^ ((!x) & z) }

  function Maj(x: Word, y: Word, z: Word): Word { (x & y) ^ (x & z) ^ (y & z) }

  function BigSigma0(x: Word): Word { Rotr(x, 2) ^ Rotr(x, 13) ^ Rotr(x, 22) }

  function BigSigma1(x: Word): Word { Rotr(x, 6) ^ Rotr(x, 11) ^ Rotr(x, 25) }

  function SmallSigma0(x: Word): Word { Rotr(x, 7) ^ Rotr(x, 18) ^ Shr(x, 3) }

  function SmallSigma1(x: Word): Word { Rotr(x, 17) ^ Rotr(x, 19) ^ Shr(x, 10) }

  // ---- section 4.2.2: constants ----

  const K: seq<seq<Word>> := [
    [0x428a2f98, 0x71374491, 0xb5c0fbcf, 0xe9b5dba5, 0x3956c25b, 0x59f111f1, 0x923f82a4, 0xab1c5ed5],
    [0xd807aa98, 0x12835b01, 0x243185be, 0x550c7dc3, 0x72be5d74, 0x80deb1fe, 0x9bdc06a7, 0xc19bf174],
    [0xe49b69c1, 0xefbe4786, 0x0fc19dc6, 0x240ca1cc, 0x2de92c6f, 0x4a7484aa, 0x5cb0a9dc, 0x76f988da],
    [0x983e5152, 0xa831c66d, 0xb00327c8, 0xbf597fc7, 0xc6e00bf3, 0xd5a79147, 0x06ca6351, 0x14292967],
    [0x27b70a85, 0x2e1b2138, 0x4d2c6dfc, 0x53380d13, 0x650a7354, 0x766a0abb, 0x81c2c92e, 0x92722c85],
    [0xa2bfe8a1, 0xa81a664b, 0xc24b8b70, 0xc76c51a3, 0xd192e819, 0xd6990624, 0xf40e3585, 0x106aa070],
    [0x19a4c116, 0x1e376c08, 0x2748774c, 0x34b0bcb5, 0x391c0cb3, 0x4ed8aa4a, 0x5b9cca4f, 0x682e6ff3],
    [0x748f82ee, 0x78a5636f, 0x84c87814, 0x8cc70208, 0x90befffa, 0xa4506ceb, 0xbef9a3f7, 0xc67178f2]]

  function Constant(t: nat): Word
    requires t < 64
  {
    K[t / 8][t % 8]
  }

  // ---- section 5.1.1: padding ----

  /** Zero bytes after the 0x80 byte. */
  function ZeroCount(n: nat): nat { (119 - n % 64) % 64 }

  /** It is the smallest count that leaves eight bytes for the length. */
  lemma ZeroCountIsSmallest(n: nat, k: nat)
    ensures (n + 1 + ZeroCount(n)) % 64 == 56
    ensures (n + 1 + k) % 64 == 56 ==> ZeroCount(n) <= k
  {
    var q, x := n / 64, n % 64;
    assert n == 64 * q + x;
  }

  function Zeros(k: nat): (z: Bytes)
    ensures |z| == k
  {
    seq(k, _ => 0)
  }

  function Pad(m: Bytes): Bytes { m + [0x80] + Zeros(ZeroCount(|m|)) + BigEndian(8 * |m|, 8) }

  // ---- section 5.2.1: parsing into words ----

  function WordOf(b0: U8, b1: U8, b2: U8, b3: U8): Word {
    ((b0 as bv32) << 24) | ((b1 as bv32) << 16) | ((b2 as bv32) << 8) | (b3 as bv32)
  }

  function WordAt(block: Bytes, t: nat): Word
    requires |block| == 64 && t < 16
  {
    WordOf(block[4 * t], block[4 * t + 1], block[4 * t + 2], block[4 * t + 3])
  }

  // ---- section 6.2.2: the hash computation ----

  /** The message schedule. */
  function Schedule(block: Bytes, t: nat): Word
    requires |block| == 64 && t < 64
  {
    if t < 16 then WordAt(block, t)
    else Plus(Plus(Plus(SmallSigma1(Schedule(block, t - 2)), Schedule(block, t - 7)),
                   SmallSigma0(Schedule(block, t - 15))),
              Schedule(block, t - 16))
  }

  function Round(v: Vars, k: Word, w: Word): Vars {
    var t1 := Plus(Plus(Plus(Plus(v.h, BigSigma1(v.e)), Ch(v.e, v.f, v.g)), k), w);
    var t2 := Plus(BigSigma0(v.a), Maj(v.a, v.b, v.c));
    Vars(Plus(t1, t2), v.a, v.b, v.c, Plus(v.d, t1), v.e, v.f, v.g)
  }

  /** The working variables after the first t rounds. */
  function Rounds(v: Vars, block: Bytes, t: nat): Vars
    requires |block| == 64 && t <= 64
  {
    if t == 0 then v else Round(Rounds(v, block, t - 1), Constant(t - 1), Schedule(block, t - 1))
  }

  function AddVars(x: Vars, y: Vars): Vars {
    Vars(Plus(x.a, y.a), Plus(x.b, y.b), Plus(x.c, y.c), Plus(x.d, y.d),
         Plus(x.e, y.e), Plus(x.f, y.f), Plus(x.g, y.g), Plus(x.h, y.h))
  }

  function Compress(v: Vars, block: Bytes): Vars
    requires |block| == 64
  {
    AddVars(v, Rounds(v, block, 64))
  }

  /** Section 5.3.3: the initial hash value. */
  const INITIAL := Vars(0x6a09e667, 0xbb67ae85, 0x3c6ef372, 0xa54ff53a, 0x510e527f, 0x9b05688c, 0x1f83d9ab, 0x5be0cd19)

  /** The whole blocks of m, one after another. */
  function Absorb(v: Vars, m: Bytes): Vars
    decreases |m|
  {
    if |m| < 64 then v else Absorb(Compress(v, m[..64]), m[64..])
  }

  function WordBytes(x: Word): (b: Bytes)
    ensures |b| == 4
  {
    [((x >> 24) & 0xff) as int, ((x >> 16) & 0xff) as int, ((x >> 8) & 0xff) as int, (x & 0xff) as int]
  }

  function Spell(ws: seq<Word>): (b: Bytes)
    ensures |b| == 4 * |ws|
  {
    if ws == [] then [] else Spell(ws[..|ws| - 1]) + WordBytes(ws[|ws| - 1])
  }

  /** The final hash value, word by word. */
  function Output(v: Vars): (d: Bytes)
    ensures |d| == 32
  {
    Spell([v.a, v.b, v.c, v.d, v.e, v.f, v.g, v.h])
  }

  function Digest(m: Bytes): (d: Bytes)
    ensures |d| == 32
  {
    Output(Absorb(INITIAL, Pad(m)))
  }

  // ---- absorbing in pieces ----

  lemma {:induction false} AbsorbAppend(v: Vars, a: Bytes, b: Bytes)
    requires |a| % 64 == 0
    ensures Absorb(v, a + b) == Absorb(Absorb(v, a), b)
    decreases |a|
  {
    hide Compress;
    if a == [] {
      assert a + b == b;
    } else {
      assert (a + b)[..64] == a[..64] && (a + b)[64..] == a[64..] + b;
      AbsorbAppend(Compress(v, a[..64]), a[64..], b);
    }
  }

  lemma PadLength(m: Bytes)
    ensures |Pad(m)| % 64 == 0
  {
    hide ZeroCount;
    ZeroCountIsSmallest(|m|, 0);
    var t := |m| + 1 + ZeroCount(|m|);
    assert |Pad(m)| == t + 8;
    Complete(t);
  }

  lemma Complete(t: nat)
    requires t % 64 == 56
    ensures (t + 8) % 64 == 0
  {
  }
}
