/** Saving and parsing the state file, step by step. */
module StateFileIO {
  import opened Types
  import opened Octets
  import opened Identity
  import opened Wire
  import opened WireIO
  import opened ByteIO
  import opened Lists
  import opened Persistence
  import opened StateFile
  import Sha256Spec
  import Sha256

  // ---- writing ----

  method WriteIds(w: ByteWriter, xs: seq<U64>, ghost rest: Bytes)
    requires |xs| <= ANY_LENGTH
    modifies w
    ensures w.buf + rest == old(w.buf) + PutCounted(xs, rest)
  {
    hide PutU64;
    w.U64(|xs|, PutIds(xs, rest));
    for i := 0 to |xs|
      invariant w.buf + PutIds(xs[i..], rest) == old(w.buf) + PutCounted(xs, rest)
    {
      assert xs[i..][1..] == xs[i + 1..];
      w.U64(xs[i], PutIds(xs[i + 1..], rest));
    }
  }

  predicate RequestSized(r: SavedRequest) {
    Sized(r.meta.descriptor) && |r.meta.payload| <= ANY_LENGTH && |r.attempts| <= ANY_LENGTH
  }

  method WriteRequest(w: ByteWriter, r: SavedRequest, ghost rest: Bytes)
    requires RequestSized(r)
    modifies w
    ensures w.buf + rest == old(w.buf) + PutRequest(r, rest)
  {
    hide PutU64, PutMeta, PutU8, PutI64, PutCounted, Sized;
    ghost var r5 := PutCounted(r.attempts, rest);
    ghost var r4 := PutU64(r.attempt, r5);
    ghost var r3 := PutU64(r.batch, r4);
    ghost var r2 := PutI64(r.submitted, r3);
    ghost var r1 := PutU8(r.state, r2);
    w.U64(r.id, PutMeta(r.meta, r1));
    WriteMeta(w, r.meta, r1);
    w.U8(r.state, r2);
    w.I64(r.submitted, r3);
    w.U64(r.batch, r4);
    w.U64(r.attempt, r5);
    WriteIds(w, r.attempts, rest);
  }

  method WriteAttempt(w: ByteWriter, a: SavedAttempt, ghost rest: Bytes)
    requires |a.result| <= ANY_LENGTH
    modifies w
    ensures w.buf + rest == old(w.buf) + PutAttempt(a, rest)
  {
    hide PutU64, PutU32, PutU8, PutI64, PutString;
    ghost var r6 := PutI64(a.completed, rest);
    ghost var r5 := PutI64(a.started, r6);
    ghost var r4 := PutString(a.result, r5);
    ghost var r3 := PutU8(a.outcome, r4);
    ghost var r2 := PutU64(a.batch, r3);
    ghost var r1 := PutU8(a.state, r2);
    w.U64(a.id, PutU32(a.number, r1));
    w.U32(a.number, r1);
    w.U8(a.state, r2);
    w.U64(a.batch, r3);
    w.U8(a.outcome, r4);
    w.String(a.result, r5);
    w.I64(a.started, r6);
    w.I64(a.completed, rest);
  }

  predicate BatchSized(b: SavedBatch) {
    |b.members| <= ANY_LENGTH && |b.parents| <= ANY_LENGTH && |b.children| <= ANY_LENGTH
  }

  method WriteBatch(w: ByteWriter, b: SavedBatch, ghost rest: Bytes)
    requires BatchSized(b)
    modifies w
    ensures w.buf + rest == old(w.buf) + PutBatch(b, rest)
  {
    hide PutU64, PutU8, PutCounted, PutAccum, PutStamps;
    ghost var r7 := PutLineage(b.parents, b.children, rest);
    ghost var r6 := PutStamps(b.stamps, r7);
    ghost var r5 := PutAccum(b.used, r6);
    ghost var r4 := PutCounted(b.members, r5);
    ghost var r3 := b.key + r4;
    ghost var r2 := PutU8(b.state, r3);
    ghost var r1 := PutU64(b.epoch, r2);
    w.U64(b.id, PutU64(b.generation, r1));
    w.U64(b.generation, r1);
    w.U64(b.epoch, r2);
    w.U8(b.state, r3);
    w.Raw(b.key, r4);
    WriteIds(w, b.members, r5);
    WriteAccum(w, b.used, r6);
    WriteStamps(w, b.stamps, r7);
    WriteIds(w, b.parents, PutCounted(b.children, rest));
    WriteIds(w, b.children, rest);
  }

  method WriteAccum(w: ByteWriter, a: Accum, ghost rest: Bytes)
    modifies w
    ensures w.buf + rest == old(w.buf) + PutAccum(a, rest)
  {
    hide PutU64, PutU32;
    ghost var r3 := PutU64(a.memory, rest);
    ghost var r2 := PutU64(a.work, r3);
    ghost var r1 := PutU64(a.output, r2);
    w.U32(a.count, PutU64(a.input, r1));
    w.U64(a.input, r1);
    w.U64(a.output, r2);
    w.U64(a.work, r3);
    w.U64(a.memory, rest);
  }

  method WriteStamps(w: ByteWriter, s: Stamps, ghost rest: Bytes)
    modifies w
    ensures w.buf + rest == old(w.buf) + PutStamps(s, rest)
  {
    hide PutU64, PutU8, PutI64;
    ghost var r5 := PutU64(s.boot, rest);
    ghost var r4 := PutU64(s.worker, r5);
    ghost var r3 := PutU8(s.reason, r4);
    ghost var r2 := PutI64(s.completed, r3);
    ghost var r1 := PutI64(s.dispatched, r2);
    w.I64(s.formed, PutI64(s.closed, r1));
    w.I64(s.closed, r1);
    w.I64(s.dispatched, r2);
    w.I64(s.completed, r3);
    w.U8(s.reason, r4);
    w.U64(s.worker, r5);
    w.U64(s.boot, rest);
  }

  method WriteHeader(w: ByteWriter, t: Tables, ghost rest: Bytes)
    requires Countable(t)
    modifies w
    ensures w.buf + rest == old(w.buf) + PutHeader(HeaderOf(t), rest)
  {
    hide PutU64, PutU32;
    var c := t.counters;
    ghost var r7 := PutU64(|t.batches|, rest);
    ghost var r6 := PutU64(|t.attempts|, r7);
    ghost var r5 := PutU64(|t.requests|, r6);
    ghost var r4 := PutU64(c.nextGeneration, r5);
    ghost var r3 := PutU64(c.nextAttempt, r4);
    ghost var r2 := PutU64(c.nextBatch, r3);
    ghost var r1 := PutU64(c.nextRequest, r2);
    ghost var r0 := PutU64(c.epoch, r1);
    w.U32(MAGIC, PutU32(VERSION, r0));
    w.U32(VERSION, r0);
    w.U64(c.epoch, r1);
    w.U64(c.nextRequest, r2);
    w.U64(c.nextBatch, r3);
    w.U64(c.nextAttempt, r4);
    w.U64(c.nextGeneration, r5);
    w.U64(|t.requests|, r6);
    w.U64(|t.attempts|, r7);
    w.U64(|t.batches|, rest);
  }

  method WriteRequests(w: ByteWriter, rs: seq<SavedRequest>, ghost rest: Bytes)
    requires forall r :: r in rs ==> RequestSized(r)
    modifies w
    ensures w.buf + rest == old(w.buf) + PutList(PutRequest, rs, rest)
  {
    hide PutRequest, RequestSized;
    for i := 0 to |rs|
      invariant w.buf + PutList(PutRequest, rs[i..], rest) == old(w.buf) + PutList(PutRequest, rs, rest)
    {
      assert rs[i..][1..] == rs[i + 1..] && rs[i] in rs;
      WriteRequest(w, rs[i], PutList(PutRequest, rs[i + 1..], rest));
    }
  }

  method WriteAttempts(w: ByteWriter, xs: seq<SavedAttempt>, ghost rest: Bytes)
    requires forall x :: x in xs ==> |x.result| <= ANY_LENGTH
    modifies w
    ensures w.buf + rest == old(w.buf) + PutList(PutAttempt, xs, rest)
  {
    hide PutAttempt;
    for i := 0 to |xs|
      invariant w.buf + PutList(PutAttempt, xs[i..], rest) == old(w.buf) + PutList(PutAttempt, xs, rest)
    {
      assert xs[i..][1..] == xs[i + 1..] && xs[i] in xs;
      WriteAttempt(w, xs[i], PutList(PutAttempt, xs[i + 1..], rest));
    }
  }

  method WriteBatches(w: ByteWriter, bs: seq<SavedBatch>, ghost rest: Bytes)
    requires forall b :: b in bs ==> BatchSized(b)
    modifies w
    ensures w.buf + rest == old(w.buf) + PutList(PutBatch, bs, rest)
  {
    hide PutBatch, BatchSized;
    for i := 0 to |bs|
      invariant w.buf + PutList(PutBatch, bs[i..], rest) == old(w.buf) + PutList(PutBatch, bs, rest)
    {
      assert bs[i..][1..] == bs[i + 1..] && bs[i] in bs;
      WriteBatch(w, bs[i], PutList(PutBatch, bs[i + 1..], rest));
    }
  }

  method WriteServed(w: ByteWriter, ps: Listing, ghost rest: Bytes)
    requires |ps| <= ANY_LENGTH && forall p :: p in ps ==> |p.0| <= ANY_LENGTH
    modifies w
    ensures w.buf + rest == old(w.buf) + PutServed(ps, rest)
  {
    hide PutU64, PutString;
    w.U64(|ps|, PutList(PutPair, ps, rest));
    for i := 0 to |ps|
      invariant w.buf + PutList(PutPair, ps[i..], rest) == old(w.buf) + PutServed(ps, rest)
    {
      ghost var tail := PutList(PutPair, ps[i + 1..], rest);
      assert ps[i..][1..] == ps[i + 1..] && ps[i] in ps;
      w.String(ps[i].0, PutU64(ps[i].1, tail));
      w.U64(ps[i].1, tail);
    }
  }

  predicate TablesSized(t: Tables) {
    && Countable(t) && (forall r :: r in t.requests ==> RequestSized(r))
    && (forall x :: x in t.attempts ==> |x.result| <= ANY_LENGTH) && (forall b :: b in t.batches ==> BatchSized(b))
  }

  /** The bytes that save puts in the file. */
  method SaveBytes(t: Tables, ps: Listing) returns (b: Bytes)
    requires TablesSized(t) && |ps| <= ANY_LENGTH && forall p :: p in ps ==> |p.0| <= ANY_LENGTH
    requires |PutBody(PutBatch, t, ps, [])| < 0x2000_0000_0000_0000
    ensures b == Save(t, ps)
  {
    hide PutHeader, PutList, PutServed, RequestSized, BatchSized, Sha256Spec.Digest;
    ghost var r3 := PutServed(ps, []);
    ghost var r2 := PutList(PutBatch, t.batches, r3);
    ghost var r1 := PutList(PutAttempt, t.attempts, r2);
    var w := new ByteWriter();
    WriteHeader(w, t, PutList(PutRequest, t.requests, r1));
    WriteRequests(w, t.requests, r1);
    WriteAttempts(w, t.attempts, r2);
    WriteBatches(w, t.batches, r3);
    WriteServed(w, ps, []);
    assert w.buf + [] == w.buf && [] + PutBody(PutBatch, t, ps, []) == PutBody(PutBatch, t, ps, []);
    var hash := Sha256.Stream.DigestOf(w.buf);
    b := w.buf + hash;
  }

  // ---- reading ----

  method ReadIds(r: ByteReader, n: nat) returns (ids: Option<seq<U64>>)
    requires r.Valid()
    modifies r
    ensures r.Took(GetIds(old(r.Rest()), n), ids)
  {
    hide GetU64;
    var xs: seq<U64> := [];
    ghost var start := r.Rest();
    PrefixedNothing(GetIds(start, n));
    for i := 0 to n
      invariant r.Valid() && GetIds(start, n) == Prefixed(xs, GetIds(r.Rest(), n - i))
    {
      var x :- r.U64();
      PrefixedStep(xs, x, GetIds(r.Rest(), n - i - 1));
      xs := xs + [x];
    }
    assert xs + [] == xs;
    ids := Some(xs);
  }

  method ReadRequest(r: ByteReader) returns (x: Option<SavedRequest>)
    requires r.Valid()
    modifies r
    ensures r.Took(GetRequest(old(r.Rest())), x)
  {
    hide GetU64, GetMeta, MetaKnown, GetU8, GetI64, GetIds;
    var id :- r.U64();
    var meta :- ReadMeta(r);
    if !MetaKnown(meta) { return None; }
    var state :- r.U8();
    if state > 12 { return None; }
    var submitted :- r.I64();
    var batch :- r.U64();
    var attempt :- r.U64();
    var n :- r.U64();
    if n > 1024 { return None; }
    var attempts :- ReadIds(r, n);
    x := Some(SavedRequest(id, meta, state, submitted, batch, attempt, attempts));
  }

  method ReadAttempt(r: ByteReader) returns (x: Option<SavedAttempt>)
    requires r.Valid()
    modifies r
    ensures r.Took(GetAttempt(old(r.Rest())), x)
  {
    hide GetU64, GetU32, GetU8, GetI64, GetString;
    var id :- r.U64();
    var number :- r.U32();
    var state :- r.U8();
    var batch :- r.U64();
    var outcome :- r.U8();
    var result :- r.String(MAX_STRING);
    var started :- r.I64();
    var completed :- r.I64();
    if state > 12 || outcome > 6 { return None; }
    x := Some(SavedAttempt(id, number, state, batch, outcome, result, started, completed));
  }

  /** A read that also had a condition to meet. */
  ghost predicate TookOnly<T>(r: ByteReader, spec: Option<(T, Bytes)>, ok: bool, x: Option<T>)
    reads r
  {
    && r.Valid() && (x.Some? <==> spec.Some? && ok)
    && (x.Some? ==> spec.value == (x.value, r.Rest()))
  }

  /** The member list, each entry looked up as it is read. */
  method ReadMembers(r: ByteReader, known: set<U64>) returns (ids: Option<seq<U64>>)
    requires r.Valid()
    modifies r
    ensures var spec := GetCounted(old(r.Rest()), MAX_RECORDS);
            TookOnly(r, spec, spec.Some? && (forall m :: m in spec.value.0 ==> m in known), ids)
  {
    hide GetU64;
    var n :- r.U64();
    if n > MAX_RECORDS { return None; }
    var xs: seq<U64> := [];
    ghost var start := r.Rest();
    PrefixedNothing(GetIds(start, n));
    for i := 0 to n
      invariant r.Valid() && GetIds(start, n) == Prefixed(xs, GetIds(r.Rest(), n - i))
      invariant forall m :: m in xs ==> m in known
    {
      var x :- r.U64();
      PrefixedStep(xs, x, GetIds(r.Rest(), n - i - 1));
      xs := xs + [x];
      if x !in known {
        assert x in xs;
        return None;
      }
    }
    assert xs + [] == xs;
    ids := Some(xs);
  }

  method ReadAccum(r: ByteReader) returns (x: Option<Accum>)
    requires r.Valid()
    modifies r
    ensures r.Took(GetAccum(old(r.Rest())), x)
  {
    hide GetU64, GetU32;
    var count :- r.U32();
    var input :- r.U64();
    var output :- r.U64();
    var work :- r.U64();
    var memory :- r.U64();
    x := Some(Accum(count, input, output, work, memory));
  }

  method ReadStamps(r: ByteReader) returns (x: Option<Stamps>)
    requires r.Valid()
    modifies r
    ensures r.Took(GetStamps(old(r.Rest())), x)
  {
    hide GetU64, GetU8, GetI64;
    var formed :- r.I64();
    var closed :- r.I64();
    var dispatched :- r.I64();
    var completed :- r.I64();
    var reason :- r.U8();
    if reason > 10 { return None; }
    var worker :- r.U64();
    var boot :- r.U64();
    x := Some(Stamps(formed, closed, dispatched, completed, reason, worker, boot));
  }

  method ReadLineage(r: ByteReader) returns (x: Option<(seq<U64>, seq<U64>)>)
    requires r.Valid()
    modifies r
    ensures r.Took(GetLineage(old(r.Rest())), x)
  {
    hide GetU64, GetIds;
    var np :- r.U64();
    var nc :- r.U64();
    if np > MAX_RECORDS || nc > MAX_RECORDS { return None; }
    var parents :- ReadIds(r, np);
    var children :- ReadIds(r, nc);
    x := Some((parents, children));
  }

  predicate MembersIn(b: SavedBatch, known: set<U64>) { forall m :: m in b.members ==> m in known }

  method ReadKey(r: ByteReader) returns (x: Option<Key>)
    requires r.Valid()
    modifies r
    ensures r.Took(GetKey(old(r.Rest())), x)
  {
    if r.pos + 32 > |r.data| { return None; }
    assert r.Rest()[..32] == r.data[r.pos..r.pos + 32] && r.Rest()[32..] == r.data[r.pos + 32..];
    x := Some(r.data[r.pos..r.pos + 32]);
    r.pos := r.pos + 32;
  }

  method ReadBatch(r: ByteReader, known: set<U64>) returns (x: Option<SavedBatch>)
    requires r.Valid()
    modifies r
    ensures var spec := GetBatch(old(r.Rest()));
            TookOnly(r, spec, spec.Some? && MembersIn(spec.value.0, known), x)
  {
    hide GetU64, GetU8, GetKey, GetCounted, GetAccum, GetStamps, GetLineage;
    var id :- r.U64();
    var generation :- r.U64();
    var epoch :- r.U64();
    var state :- r.U8();
    var key :- ReadKey(r);
    if state > 8 { return None; }
    var members :- ReadMembers(r, known);
    var used :- ReadAccum(r);
    var stamps :- ReadStamps(r);
    var lineage :- ReadLineage(r);
    x := Some(SavedBatch(id, generation, epoch, state, key, members, used, stamps, lineage.0, lineage.1));
  }

  lemma DistinctGrows<T>(id: T -> U64, xs: seq<T>, y: T)
    ensures Distinct(Ids(id, xs + [y])) <==> Distinct(Ids(id, xs)) && id(y) != 0 && id(y) !in SetOf(Ids(id, xs))
    ensures SetOf(Ids(id, xs + [y])) == SetOf(Ids(id, xs)) + {id(y)}
  {
    var ids, more := Ids(id, xs), Ids(id, xs + [y]);
    assert more == ids + [id(y)];
    hide Ids;
    if Distinct(more) {
      assert more[..|ids|] == ids;
      forall k | 0 <= k < |ids| ensures ids[k] != id(y) { assert more[k] != more[|ids|]; }
    }
    if Distinct(ids) && id(y) != 0 && id(y) !in ids { NoDupAppend(ids, id(y)); }
  }

  /** A collision among the records read so far rules the whole list out. */
  lemma CollisionStays<T>(id: T -> U64, xs: seq<T>, later: Option<(seq<T>, Bytes)>)
    requires !Distinct(Ids(id, xs))
    ensures Prefixed(xs, later).Some? ==> !Distinct(Ids(id, Prefixed(xs, later).value.0))
  {
    if later.Some? {
      var all := Ids(id, xs + later.value.0);
      assert all == Ids(id, xs) + Ids(id, later.value.0);
      assert all[..|xs|] == Ids(id, xs);
      PrefixDistinct(all, |xs|);
    }
  }

  lemma PrefixDistinct(ids: seq<U64>, n: nat)
    requires n <= |ids|
    ensures Distinct(ids) ==> Distinct(ids[..n])
  {
  }

  lemma EmptyIsDistinct<T>(id: T -> U64)
    ensures Distinct(Ids(id, [])) && SetOf(Ids(id, [])) == {}
  {
  }

  function SetOf(ids: seq<U64>): set<U64> { set i | i in ids }

  method ReadRequests(r: ByteReader, n: nat) returns (rs: Option<seq<SavedRequest>>, seen: set<U64>)
    requires r.Valid()
    modifies r
    ensures var spec := GetList(GetRequest, old(r.Rest()), n);
            TookOnly(r, spec, spec.Some? && Distinct(Ids(RequestId, spec.value.0)), rs)
    ensures rs.Some? ==> seen == SetOf(Ids(RequestId, rs.value))
  {
    hide GetRequest, Distinct, Ids, SetOf;
    var xs: seq<SavedRequest> := [];
    seen := {};
    ghost var start := r.Rest();
    PrefixedNothing(GetList(GetRequest, start, n));
    EmptyIsDistinct(RequestId);
    for i := 0 to n
      invariant r.Valid() && GetList(GetRequest, start, n) == Prefixed(xs, GetList(GetRequest, r.Rest(), n - i))
      invariant Distinct(Ids(RequestId, xs)) && seen == SetOf(Ids(RequestId, xs))
    {
      var x := ReadRequest(r);
      if x.None? { return None, seen; }
      PrefixedStep(xs, x.value, GetList(GetRequest, r.Rest(), n - i - 1));
      DistinctGrows(RequestId, xs, x.value);
      xs := xs + [x.value];
      if x.value.id == 0 || x.value.id in seen {
        CollisionStays(RequestId, xs, GetList(GetRequest, r.Rest(), n - i - 1));
        return None, seen;
      }
      seen := seen + {x.value.id};
    }
    assert xs + [] == xs;
    rs := Some(xs);
  }

  method ReadAttempts(r: ByteReader, n: nat) returns (rs: Option<seq<SavedAttempt>>)
    requires r.Valid()
    modifies r
    ensures var spec := GetList(GetAttempt, old(r.Rest()), n);
            TookOnly(r, spec, spec.Some? && Distinct(Ids(AttemptId, spec.value.0)), rs)
  {
    hide GetAttempt, Distinct, Ids, SetOf;
    var xs: seq<SavedAttempt> := [];
    var seen: set<U64> := {};
    ghost var start := r.Rest();
    PrefixedNothing(GetList(GetAttempt, start, n));
    EmptyIsDistinct(AttemptId);
    for i := 0 to n
      invariant r.Valid() && GetList(GetAttempt, start, n) == Prefixed(xs, GetList(GetAttempt, r.Rest(), n - i))
      invariant Distinct(Ids(AttemptId, xs)) && seen == SetOf(Ids(AttemptId, xs))
    {
      var x :- ReadAttempt(r);
      PrefixedStep(xs, x, GetList(GetAttempt, r.Rest(), n - i - 1));
      DistinctGrows(AttemptId, xs, x);
      xs := xs + [x];
      if x.id == 0 || x.id in seen {
        CollisionStays(AttemptId, xs, GetList(GetAttempt, r.Rest(), n - i - 1));
        return None;
      }
      seen := seen + {x.id};
    }
    assert xs + [] == xs;
    rs := Some(xs);
  }

  predicate AllMembersIn(bs: seq<SavedBatch>, known: set<U64>) { forall b :: b in bs ==> MembersIn(b, known) }

  method ReadBatches(r: ByteReader, n: nat, known: set<U64>) returns (bs: Option<seq<SavedBatch>>)
    requires r.Valid()
    modifies r
    ensures var spec := GetList(GetBatch, old(r.Rest()), n);
            TookOnly(r, spec, spec.Some? && Distinct(Ids(BatchId, spec.value.0)) && AllMembersIn(spec.value.0, known), bs)
  {
    hide GetBatch, Distinct, Ids, SetOf, MembersIn;
    var xs: seq<SavedBatch> := [];
    var seen: set<U64> := {};
    ghost var start := r.Rest();
    PrefixedNothing(GetList(GetBatch, start, n));
    EmptyIsDistinct(BatchId);
    for i := 0 to n
      invariant r.Valid() && GetList(GetBatch, start, n) == Prefixed(xs, GetList(GetBatch, r.Rest(), n - i))
      invariant Distinct(Ids(BatchId, xs)) && seen == SetOf(Ids(BatchId, xs)) && AllMembersIn(xs, known)
    {
      ghost var spec := GetBatch(r.Rest());
      ghost var whole := GetList(GetBatch, r.Rest(), n - i);
      var y := ReadBatch(r, known);
      if y.None? {
        if whole.Some? {
          assert spec.Some? && whole.value.0[0] == spec.value.0 && spec.value.0 in xs + whole.value.0;
        }
        return None;
      }
      var x := y.value;
      PrefixedStep(xs, x, GetList(GetBatch, r.Rest(), n - i - 1));
      DistinctGrows(BatchId, xs, x);
      xs := xs + [x];
      if x.id == 0 || x.id in seen {
        CollisionStays(BatchId, xs, GetList(GetBatch, r.Rest(), n - i - 1));
        return None;
      }
      seen := seen + {x.id};
    }
    assert xs + [] == xs;
    bs := Some(xs);
  }

  method ReadServed(r: ByteReader) returns (m: Option<map<Bytes, U64>>)
    requires r.Valid()
    modifies r
    ensures var spec := GetServed(old(r.Rest()));
            && r.Valid() && (m.Some? <==> spec.Some?)
            && (m.Some? ==> m.value == MapOf(spec.value.0) && r.Rest() == spec.value.1)
  {
    hide GetU64, GetString;
    var n :- r.U64();
    if n > MAX_RECORDS { return None; }
    ghost var xs: Listing := [];
    var served: map<Bytes, U64> := map[];
    ghost var start := r.Rest();
    PrefixedNothing(GetList(GetPair, start, n));
    for i := 0 to n
      invariant r.Valid() && GetList(GetPair, start, n) == Prefixed(xs, GetList(GetPair, r.Rest(), n - i))
      invariant served == MapOf(xs)
    {
      var k :- r.String(MAX_STRING);
      var v :- r.U64();
      PrefixedStep(xs, (k, v), GetList(GetPair, r.Rest(), n - i - 1));
      MapOfSnoc(xs, (k, v));
      xs := xs + [(k, v)];
      served := served[k := v];
    }
    assert xs + [] == xs;
    m := Some(served);
  }

  /** Batch i's members are recorded as far as the k-th. */
  ghost predicate Recorded(bs: seq<SavedBatch>, i: nat, k: nat, active: map<U64, U64>)
    requires i < |bs| ==> k <= |bs[i].members|
  {
    && (forall j, m :: 0 <= j < i && j < |bs| && Active(bs[j]) && m in bs[j].members ==> m in active && active[m] == bs[j].id)
    && (i < |bs| && Active(bs[i]) ==> forall m :: m in bs[i].members[..k] ==> m in active && active[m] == bs[i].id)
    && (forall m :: m in active ==> exists b :: b in bs && Active(b) && m in b.members && active[m] == b.id)
  }

  /** The overlap scan over all batches that are not terminal. */
  method CheckDisjoint(bs: seq<SavedBatch>) returns (ok: bool)
    ensures ok <==> Disjoint(bs)
  {
    var active: map<U64, U64> := map[];
    for i := 0 to |bs|
      invariant Recorded(bs, i, 0, active)
    {
      if Active(bs[i]) {
        for k := 0 to |bs[i].members|
          invariant Recorded(bs, i, k, active)
        {
          var m := bs[i].members[k];
          if m in active && active[m] != bs[i].id {
            assert bs[i] in bs && m in bs[i].members;
            return false;
          }
          assert bs[i].members[..k + 1] == bs[i].members[..k] + [m];
          active := active[m := bs[i].id];
        }
      }
    }
    AllRecorded(bs, active);
    ok := true;
  }

  lemma AllRecorded(bs: seq<SavedBatch>, active: map<U64, U64>)
    requires Recorded(bs, |bs|, 0, active)
    ensures Disjoint(bs)
  {
    forall b, c, m | b in bs && c in bs && Active(b) && Active(c) && m in b.members && m in c.members ensures b.id == c.id {
      var i :| 0 <= i < |bs| && bs[i] == b;
      var j :| 0 <= j < |bs| && bs[j] == c;
      assert active[m] == bs[i].id && active[m] == bs[j].id;
    }
  }

  lemma KnownEither(bs: seq<SavedBatch>, ids: seq<U64>)
    ensures AllMembersIn(bs, SetOf(ids)) <==> MembersKnown(bs, ids)
  {
    if MembersKnown(bs, ids) {
      forall b | b in bs ensures MembersIn(b, SetOf(ids)) { }
    }
    if AllMembersIn(bs, SetOf(ids)) {
      forall b, m | b in bs && m in b.members ensures m in ids { assert MembersIn(b, SetOf(ids)); }
    }
  }

  method ReadHeader(r: ByteReader) returns (h: Option<Header>)
    requires r.Valid()
    modifies r
    ensures r.Took(GetHeader(old(r.Rest())), h)
  {
    hide GetU64, GetU32;
    var magic :- r.U32();
    var version :- r.U32();
    if magic != MAGIC { return None; }
    if version != VERSION { return None; }
    var epoch :- r.U64();
    var nextRequest :- r.U64();
    var nextBatch :- r.U64();
    var nextAttempt :- r.U64();
    var nextGeneration :- r.U64();
    var requests :- r.U64();
    var attempts :- r.U64();
    var batches :- r.U64();
    if requests > MAX_RECORDS || batches > MAX_RECORDS || attempts > MAX_RECORDS { return None; }
    h := Some(Header(Counters(epoch, nextRequest, nextBatch, nextAttempt, nextGeneration), requests, attempts, batches));
  }

  /** The validator as the source runs it, checks interleaved with reads. */
  method ParseBytes(b: Bytes) returns (rt: Option<Runtime>)
    requires |b| < 0x2000_0000_0000_0000
    ensures rt == Parse(b)
  {
    hide Sha256Spec.Digest, GetHeader, GetList, GetServed, MapOf, Distinct, Disjoint, MembersKnown, AllMembersIn, Ids, SetOf;
    if |b| < 44 { return None; }
    var actual := Sha256.Stream.DigestOf(b[..|b| - 32]);
    if actual != b[|b| - 32..] { return None; }
    var r := new ByteReader(b);
    var h :- ReadHeader(r);
    var rs, known := ReadRequests(r, h.requests);
    if rs.None? { return None; }
    var attempts :- ReadAttempts(r, h.attempts);
    ghost var spec := GetList(GetBatch, r.Rest(), h.batches);
    if spec.Some? { KnownEither(spec.value.0, Ids(RequestId, rs.value)); }
    var batches :- ReadBatches(r, h.batches, known);
    var served :- ReadServed(r);
    var disjoint := CheckDisjoint(batches);
    if !disjoint { return None; }
    if |r.data| - r.pos != 32 { return None; }
    rt := Some(Runtime(Tables(h.counters, rs.value, attempts, batches), served));
  }
}
