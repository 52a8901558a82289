/** The streaming implementation: a 64-byte buffer in front of the compression
    function. */
module Sha256 {
  import opened Types
  import opened Octets
  import opened Sha256Spec

  lemma ScheduleUnfolds(block: Bytes, t: nat)
    requires |block| == 64 && 16 <= t < 64
    ensures Schedule(block, t)
            == Plus(Plus(Plus(SmallSigma1(Schedule(block, t - 2)), Schedule(block, t - 7)),
                         SmallSigma0(Schedule(block, t - 15))),
                    Schedule(block, t - 16))
  {
    hide SmallSigma0, SmallSigma1, WordAt, Plus;
  }

  /** The code adds the schedule terms in another order than the standard. */
  lemma ScheduleStep(block: Bytes, t: nat)
    requires |block| == 64 && 16 <= t < 64
    ensures Schedule(block, t)
            == Plus(Plus(Plus(Schedule(block, t - 16), SmallSigma0(Schedule(block, t - 15))),
                         Schedule(block, t - 7)),
                    SmallSigma1(Schedule(block, t - 2)))
  {
    hide *;
    ScheduleUnfolds(block, t);
    Reorder(SmallSigma1(Schedule(block, t - 2)), Schedule(block, t - 7), SmallSigma0(Schedule(block, t - 15)), Schedule(block, t - 16));
  }

  lemma Reorder(x: Word, y: Word, z: Word, u: Word)
    ensures Plus(Plus(Plus(x, y), z), u) == Plus(Plus(Plus(u, z), y), x)
  {
    PlusCommutes(Plus(Plus(x, y), z), u);
    PlusCommutes(Plus(x, y), z);
    PlusCommutes(x, y);
    PlusAssociates(u, z, Plus(y, x));
    PlusAssociates(Plus(u, z), y, x);
    hide Plus;
  }

  lemma PlusCommutes(x: Word, y: Word)
    ensures Plus(x, y) == Plus(y, x)
  {
  }

  lemma PlusAssociates(x: Word, y: Word, z: Word)
    ensures Plus(Plus(x, y), z) == Plus(x, Plus(y, z))
  {
    AddAssociates(x, y, z);
    assert Plus(x, y) == x + y && Plus(y, z) == y + z;
  }

  lemma AddAssociates(x: Word, y: Word, z: Word)
    ensures (x + y) + z == x + (y + z)
  {
  }

  /** What is kept of the bytes absorbed so far: whole blocks folded, the rest
      waiting in the buffer. */
  ghost predicate Holds(v: Vars, waiting: Bytes, absorbed: Bytes) {
    && |waiting| < 64 && |waiting| <= |absorbed| && (|absorbed| - |waiting|) % 64 == 0
    && v == Absorb(INITIAL, absorbed[..|absorbed| - |waiting|])
    && waiting == absorbed[|absorbed| - |waiting|..]
  }

  lemma HoldsMore(v: Vars, waiting: Bytes, absorbed: Bytes, more: Bytes)
    requires Holds(v, waiting, absorbed) && |waiting| + |more| < 64
    ensures Holds(v, waiting + more, absorbed + more)
  {
    var n := |absorbed| - |waiting|;
    assert (absorbed + more)[..n] == absorbed[..n];
    assert (absorbed + more)[n..] == absorbed[n..] + more;
  }

  /** A filled buffer is compressed and starts again empty. */
  lemma HoldsBlock(v: Vars, waiting: Bytes, absorbed: Bytes, more: Bytes)
    requires Holds(v, waiting, absorbed) && |waiting| + |more| == 64
    ensures Holds(Compress(v, waiting + more), [], absorbed + more)
  {
    hide Compress;
    var n, all := |absorbed| - |waiting|, absorbed + more;
    assert all[..|all|] == absorbed[..n] + (waiting + more);
    AbsorbAppend(INITIAL, absorbed[..n], waiting + more);
    assert (waiting + more)[..64] == waiting + more;
    assert Absorb(v, waiting + more) == Compress(v, waiting + more);
  }

  class Stream {
    const state: array<Word>
    const buffer: array<U8>
    var buffered: nat
    var totalLen: U64
    ghost var absorbed: Bytes

    ghost predicate Shaped() {
      state.Length == 8 && buffer.Length == 64
    }

    ghost function Words(): Vars
      requires Shaped()
      reads state
    {
      Vars(state[0], state[1], state[2], state[3], state[4], state[5], state[6], state[7])
    }

    ghost predicate Valid()
      reads this, state, buffer
    {
      && Shaped() && buffered < 64
      && Holds(Words(), buffer[..buffered], absorbed)
      && totalLen == |absorbed| % 0x1_0000_0000_0000_0000
    }

    constructor ()
      ensures Valid() && absorbed == [] && fresh(state) && fresh(buffer)
    {
      state := new Word[8][0x6a09e667, 0xbb67ae85, 0x3c6ef372, 0xa54ff53a, 0x510e527f, 0x9b05688c, 0x1f83d9ab, 0x5be0cd19];
      buffer := new U8[64](_ => 0);
      buffered := 0;
      totalLen := 0;
      absorbed := [];
    }

    /** The first sixteen words of the schedule. */
    method LoadWords(w: array<Word>, block: Bytes)
      requires w.Length == 64 && |block| == 64
      modifies w
      ensures forall t :: 0 <= t < 16 ==> w[t] == WordAt(block, t)
    {
      hide WordOf;
      for i := 0 to 16
        invariant forall t :: 0 <= t < i ==> w[t] == WordAt(block, t)
      {
        w[i] := WordOf(block[i * 4], block[i * 4 + 1], block[i * 4 + 2], block[i * 4 + 3]);
      }
    }

    /** The rest of the schedule. */
    method Extend(w: array<Word>, ghost block: Bytes)
      requires w.Length == 64 && |block| == 64
      requires forall t :: 0 <= t < 16 ==> w[t] == WordAt(block, t)
      modifies w
      ensures forall t :: 0 <= t < 64 ==> w[t] == Schedule(block, t)
    {
      hide WordAt, SmallSigma0, SmallSigma1, Plus;
      assert forall t :: 0 <= t < 16 ==> Schedule(block, t) == WordAt(block, t);
      hide Schedule;
      for i := 16 to 64
        invariant forall t :: 0 <= t < i ==> w[t] == Schedule(block, t)
      {
        ScheduleStep(block, i);
        var s0 := SmallSigma0(w[i - 15]);
        var s1 := SmallSigma1(w[i - 2]);
        w[i] := Plus(Plus(Plus(w[i - 16], s0), w[i - 7]), s1);
      }
    }

    /** The 64 rounds and the final addition. */
    method MixBlock(w: array<Word>, ghost block: Bytes)
      requires Shaped() && w.Length == 64 && w != state && |block| == 64
      requires forall t :: 0 <= t < 64 ==> w[t] == Schedule(block, t)
      modifies state
      ensures Words() == Compress(old(Words()), block)
    {
      hide Ch, Maj, BigSigma0, BigSigma1, Schedule, Constant, Plus;
      var a, b, c, d := state[0], state[1], state[2], state[3];
      var e, f, g, h := state[4], state[5], state[6], state[7];
      ghost var start := Words();
      for i := 0 to 64
        invariant Vars(a, b, c, d, e, f, g, h) == Rounds(start, block, i)
      {
        var temp1 := Plus(Plus(Plus(Plus(h, BigSigma1(e)), Ch(e, f, g)), Constant(i)), w[i]);
        var temp2 := Plus(BigSigma0(a), Maj(a, b, c));
        h, g, f, e, d, c, b, a := g, f, e, Plus(d, temp1), c, b, a, Plus(temp1, temp2);
      }
      Accumulate(Vars(a, b, c, d, e, f, g, h));
    }

    method Accumulate(v: Vars)
      requires Shaped()
      modifies state
      ensures Words() == AddVars(old(Words()), v)
    {
      hide Plus;
      state[0] := Plus(state[0], v.a);
      state[1] := Plus(state[1], v.b);
      state[2] := Plus(state[2], v.c);
      state[3] := Plus(state[3], v.d);
      state[4] := Plus(state[4], v.e);
      state[5] := Plus(state[5], v.f);
      state[6] := Plus(state[6], v.g);
      state[7] := Plus(state[7], v.h);
    }

    /** The compression function over one block. */
    method Transform(block: Bytes)
      requires Shaped() && |block| == 64
      modifies state
      ensures Words() == Compress(old(Words()), block)
    {
      hide Schedule, WordAt, Compress;
      var w := new Word[64];
      LoadWords(w, block);
      Extend(w, block);
      MixBlock(w, block);
    }

    /** One round of the copy loop: as much as the buffer still takes. */
    method Fill(data: Bytes)
      requires Shaped() && buffered < 64 && data != [] && buffered + |data| <= 64
      requires Holds(Words(), buffer[..buffered], absorbed)
      modifies this, state, buffer
      ensures buffered < 64 && absorbed == old(absorbed) + data && totalLen == old(totalLen)
      ensures Holds(Words(), buffer[..buffered], absorbed)
    {
      ghost var waiting := buffer[..buffered];
      var n := buffered;
      forall k | 0 <= k < |data| { buffer[n + k] := data[k]; }
      buffered := n + |data|;
      assert buffer[..buffered] == waiting + data;
      if buffered == 64 {
        HoldsBlock(Words(), waiting, absorbed, data);
        assert buffer[..] == waiting + data;
        Transform(buffer[..]);
        buffered := 0;
      } else {
        HoldsMore(Words(), waiting, absorbed, data);
      }
      absorbed := absorbed + data;
    }

    method Update(data: Bytes)
      requires Valid()
      modifies this, state, buffer
      ensures Valid() && absorbed == old(absorbed) + data
    {
      hide Holds;
      LengthAdds(|absorbed|, |data|);
      totalLen := (totalLen + |data|) % 0x1_0000_0000_0000_0000;
      ghost var total := totalLen;
      var i := 0;
      while i < |data|
        invariant 0 <= i <= |data| && buffered < 64 && totalLen == total
        invariant absorbed == old(absorbed) + data[..i]
        invariant Holds(Words(), buffer[..buffered], absorbed)
      {
        var take := 64 - buffered;
        if take > |data| - i { take := |data| - i; }
        assert data[..i + take] == data[..i] + data[i..i + take];
        Fill(data[i..i + take]);
        i := i + take;
      }
      assert data[..i] == data;
    }

    method WriteState() returns (out: Bytes)
      requires Shaped()
      ensures out == Output(Words())
    {
      hide WordBytes;
      out := [];
      for i := 0 to 8
        invariant out == Spell(state[..i])
      {
        out := out + WordBytes(state[i]);
        assert state[..i + 1][..i] == state[..i];
      }
      var w := Words();
      assert state[..8] == [w.a, w.b, w.c, w.d, w.e, w.f, w.g, w.h];
    }

    /** The zero-padding loop ends, and exactly where the standard says. */
    method PadZeros(ghost m: Bytes)
      requires Valid() && absorbed == m + [0x80]
      modifies this, state, buffer
      ensures Valid() && absorbed == m + [0x80] + Zeros(ZeroCount(|m|))
    {
      hide Holds, Zeros, ZeroCount;
      ghost var k := 0;
      ZeroCountIsSmallest(|m|, 0);
      assert absorbed == m + [0x80] + Zeros(0);
      BufferedCount();
      while buffered != 56
        invariant Valid() && absorbed == m + [0x80] + Zeros(k)
        invariant k <= ZeroCount(|m|) && buffered == (|m| + 1 + k) % 64
        decreases ZeroCount(|m|) - k
      {
        Update([0]);
        ZerosGrow(k);
        k := k + 1;
        assert absorbed == m + [0x80] + Zeros(k);
        BufferedCount();
      }
      ZeroCountIsSmallest(|m|, k);
    }

    /** Pads, absorbs the bit length and writes the state out. */
    method Final() returns (out: Bytes)
      requires Valid() && |absorbed| < 0x2000_0000_0000_0000
      modifies this, state, buffer
      ensures out == Digest(old(absorbed))
    {
      hide Holds, Absorb, Output, Zeros, ZeroCount;
      ghost var m := absorbed;
      var bits := totalLen * 8 % 0x1_0000_0000_0000_0000;
      assert bits == 8 * |m|;
      Update([0x80]);
      PadZeros(m);
      var length := Emit(bits, 8);
      Update(length);
      assert absorbed == Pad(m);
      PadLength(m);
      BufferedCount();
      HoldsWhole(Words(), absorbed);
      out := WriteState();
    }

    lemma BufferedCount()
      requires Valid()
      ensures buffered == |absorbed| % 64
    {
      hide Absorb;
      assert |buffer[..buffered]| == buffered;
      CountOf(|absorbed|, buffered);
    }

    /** Sha256::digest: one update and the final step. */
    static method DigestOf(data: Bytes) returns (out: Bytes)
      requires |data| < 0x2000_0000_0000_0000
      ensures out == Digest(data)
    {
      hide Holds, Digest;
      var s := new Stream();
      s.Update(data);
      assert s.absorbed == data;
      out := s.Final();
    }

    /** However a message is cut into updates, the digest is that of the whole. */
    static method DigestOfPieces(pieces: seq<Bytes>) returns (out: Bytes)
      requires |Joined(pieces)| < 0x2000_0000_0000_0000
      ensures out == Digest(Joined(pieces))
    {
      hide Holds, Digest;
      var s := new Stream();
      for i := 0 to |pieces|
        invariant s.Valid() && s.absorbed == Joined(pieces[..i]) && fresh(s) && fresh(s.state) && fresh(s.buffer)
      {
        s.Update(pieces[i]);
        assert pieces[..i + 1][..i] == pieces[..i];
      }
      assert pieces[..|pieces|] == pieces && s.absorbed == Joined(pieces);
      out := s.Final();
    }
  }

  function Joined(pieces: seq<Bytes>): Bytes {
    if pieces == [] then [] else Joined(pieces[..|pieces| - 1]) + pieces[|pieces| - 1]
  }

  lemma CountOf(total: nat, waiting: nat)
    requires waiting < 64 && waiting <= total && (total - waiting) % 64 == 0
    ensures waiting == total % 64
  {
  }

  lemma ZerosGrow(k: nat)
    ensures Zeros(k) + [0] == Zeros(k + 1)
  {
  }

  /** With an empty buffer the state is the fold over everything absorbed. */
  lemma HoldsWhole(v: Vars, absorbed: Bytes)
    requires Holds(v, [], absorbed)
    ensures v == Absorb(INITIAL, absorbed)
  {
    assert absorbed[..|absorbed|] == absorbed;
  }

  lemma LengthAdds(m: nat, n: nat)
    ensures (m % 0x1_0000_0000_0000_0000 + n) % 0x1_0000_0000_0000_0000 == (m + n) % 0x1_0000_0000_0000_0000
  {
  }
}
