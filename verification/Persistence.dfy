/** The layout of the state file and what the validator accepts. */
module Persistence {
  import opened Types
  import opened Octets
  import opened Identity
  import opened Wire

  const MAGIC: U32 := 0x4643_5254
  const VERSION: U32 := 1
  const MAX_RECORDS: nat := 10 * 1024 * 1024
  const MAX_ATTEMPTS: nat := 1024

  datatype SavedRequest = SavedRequest(
    id: U64, meta: Metadata, state: U8, submitted: I64, batch: U64, attempt: U64, attempts: seq<U64>)

  datatype SavedAttempt = SavedAttempt(
    id: U64, number: U32, state: U8, batch: U64, outcome: U8, result: Bytes, started: I64, completed: I64)

  datatype Stamps = Stamps(formed: I64, closed: I64, dispatched: I64, completed: I64, reason: U8, worker: U64, boot: U64)

  datatype SavedBatch = SavedBatch(
    id: U64, generation: U64, epoch: U64, state: U8, key: Key, members: seq<U64>,
    used: Accum, stamps: Stamps, parents: seq<U64>, children: seq<U64>)

  datatype Counters = Counters(epoch: U64, nextRequest: U64, nextBatch: U64, nextAttempt: U64, nextGeneration: U64)

  datatype Tables = Tables(
    counters: Counters, requests: seq<SavedRequest>, attempts: seq<SavedAttempt>, batches: seq<SavedBatch>)

  type Listing = seq<(Bytes, U64)>

  datatype Runtime = Runtime(tables: Tables, served: map<Bytes, U64>)

  // ---- enumerations ----

  predicate Known(v: U8, max: nat) { v <= max || v == 255 }

  predicate TraitsKnown(t: Traits) {
    t.phase <= 1 && Known(t.dtype, 4) && Known(t.backend, 4) && Known(t.mode, 3) && Known(t.device.backend, 4)
  }

  predicate MetaKnown(m: Metadata) { TraitsKnown(TraitsOf(m.descriptor)) && m.latency <= 4 && m.priority <= 3 }

  // ---- requests ----

  function PutCounted(xs: seq<U64>, rest: Bytes): Bytes { PutU64(|xs|, PutIds(xs, rest)) }

  function GetCounted(b: Bytes, limit: nat): Option<(seq<U64>, Bytes)> {
    var (n, b1) :- GetU64(b);
    if n > limit then None else GetIds(b1, n)
  }

  lemma CountedRoundTrip(xs: seq<U64>, rest: Bytes, limit: nat)
    requires |xs| <= limit <= ANY_LENGTH
    ensures GetCounted(PutCounted(xs, rest), limit) == Some((xs, rest))
  {
    hide PutU64, GetU64, PutIds, GetIds;
    U64RoundTrip(|xs|, PutIds(xs, rest));
    IdsRoundTrip(xs, rest);
  }

  lemma CountedCanonical(b: Bytes, limit: nat)
    requires GetCounted(b, limit).Some?
    ensures b == PutCounted(GetCounted(b, limit).value.0, GetCounted(b, limit).value.1)
    ensures |GetCounted(b, limit).value.0| <= limit
  {
    hide PutU64, GetU64, PutIds, GetIds;
    U64Canonical(b);
    var (n, b1) := GetU64(b).value;
    IdsCanonical(b1, n);
  }

  function PutRequest(r: SavedRequest, rest: Bytes): Bytes {
    PutU64(r.id, PutMeta(r.meta, PutU8(r.state, PutI64(r.submitted,
      PutU64(r.batch, PutU64(r.attempt, PutCounted(r.attempts, rest)))))))
  }

  function GetRequest(b: Bytes): Option<(SavedRequest, Bytes)> {
    var (id, b1) :- GetU64(b);
    var (meta, b2) :- GetMeta(b1);
    if !MetaKnown(meta) then None else
    var (state, b3) :- GetU8(b2);
    if state > 12 then None else
    var (submitted, b4) :- GetI64(b3);
    var (batch, b5) :- GetU64(b4);
    var (attempt, b6) :- GetU64(b5);
    var (attempts, b7) :- GetCounted(b6, MAX_ATTEMPTS);
    Some((SavedRequest(id, meta, state, submitted, batch, attempt, attempts), b7))
  }

  predicate RequestFits(r: SavedRequest) {
    MetaFits(r.meta) && MetaKnown(r.meta) && r.state <= 12 && |r.attempts| <= MAX_ATTEMPTS
  }

  lemma RequestRoundTrip(r: SavedRequest, rest: Bytes)
    requires RequestFits(r)
    ensures GetRequest(PutRequest(r, rest)) == Some((r, rest))
  {
    hide PutU64, GetU64, PutMeta, GetMeta, MetaFits, MetaKnown, PutU8, GetU8, PutI64, GetI64, PutCounted, GetCounted;
    var r6 := PutCounted(r.attempts, rest);
    var r5 := PutU64(r.attempt, r6);
    var r4 := PutU64(r.batch, r5);
    var r3 := PutI64(r.submitted, r4);
    var r2 := PutU8(r.state, r3);
    U64RoundTrip(r.id, PutMeta(r.meta, r2));
    MetaRoundTrip(r.meta, r2);
    U8RoundTrip(r.state, r3);
    I64RoundTrip(r.submitted, r4);
    U64RoundTrip(r.batch, r5);
    U64RoundTrip(r.attempt, r6);
    CountedRoundTrip(r.attempts, rest, MAX_ATTEMPTS);
  }

  lemma RequestCanonical(b: Bytes)
    requires GetRequest(b).Some?
    ensures RequestFits(GetRequest(b).value.0) && b == PutRequest(GetRequest(b).value.0, GetRequest(b).value.1)
  {
    hide PutU64, GetU64, PutMeta, GetMeta, MetaFits, MetaKnown, PutU8, GetU8, PutI64, GetI64, PutCounted, GetCounted;
    U64Canonical(b);
    var b1 := GetU64(b).value.1;
    MetaCanonical(b1);
    var b2 := GetMeta(b1).value.1;
    U8Canonical(b2);
    var b3 := GetU8(b2).value.1;
    I64Canonical(b3);
    var b4 := GetI64(b3).value.1;
    U64Canonical(b4);
    var b5 := GetU64(b4).value.1;
    U64Canonical(b5);
    CountedCanonical(GetU64(b5).value.1, MAX_ATTEMPTS);
  }

  // ---- attempts ----

  function PutAttempt(a: SavedAttempt, rest: Bytes): Bytes {
    PutU64(a.id, PutU32(a.number, PutU8(a.state, PutU64(a.batch, PutU8(a.outcome,
      PutString(a.result, PutI64(a.started, PutI64(a.completed, rest))))))))
  }

  function GetAttempt(b: Bytes): Option<(SavedAttempt, Bytes)> {
    var (id, b1) :- GetU64(b);
    var (number, b2) :- GetU32(b1);
    var (state, b3) :- GetU8(b2);
    var (batch, b4) :- GetU64(b3);
    var (outcome, b5) :- GetU8(b4);
    var (result, b6) :- GetString(b5, MAX_STRING);
    var (started, b7) :- GetI64(b6);
    var (completed, b8) :- GetI64(b7);
    if state > 12 || outcome > 6 then None else
    Some((SavedAttempt(id, number, state, batch, outcome, result, started, completed), b8))
  }

  predicate AttemptFits(a: SavedAttempt) { a.state <= 12 && a.outcome <= 6 && |a.result| <= MAX_STRING }

  lemma AttemptRoundTrip(a: SavedAttempt, rest: Bytes)
    requires AttemptFits(a)
    ensures GetAttempt(PutAttempt(a, rest)) == Some((a, rest))
  {
    hide PutU64, GetU64, PutU32, GetU32, PutU8, GetU8, PutI64, GetI64, PutString, GetString;
    var r7 := PutI64(a.completed, rest);
    var r6 := PutI64(a.started, r7);
    var r5 := PutString(a.result, r6);
    var r4 := PutU8(a.outcome, r5);
    var r3 := PutU64(a.batch, r4);
    var r2 := PutU8(a.state, r3);
    U64RoundTrip(a.id, PutU32(a.number, r2));
    U32RoundTrip(a.number, r2);
    U8RoundTrip(a.state, r3);
    U64RoundTrip(a.batch, r4);
    U8RoundTrip(a.outcome, r5);
    StringRoundTrip(a.result, r6, MAX_STRING);
    I64RoundTrip(a.started, r7);
    I64RoundTrip(a.completed, rest);
  }

  lemma AttemptCanonical(b: Bytes)
    requires GetAttempt(b).Some?
    ensures AttemptFits(GetAttempt(b).value.0) && b == PutAttempt(GetAttempt(b).value.0, GetAttempt(b).value.1)
  {
    hide PutU64, GetU64, PutU32, GetU32, PutU8, GetU8, PutI64, GetI64, PutString, GetString;
    U64Canonical(b);
    var b1 := GetU64(b).value.1;
    U32Canonical(b1);
    var b2 := GetU32(b1).value.1;
    U8Canonical(b2);
    var b3 := GetU8(b2).value.1;
    U64Canonical(b3);
    var b4 := GetU64(b3).value.1;
    U8Canonical(b4);
    var b5 := GetU8(b4).value.1;
    StringCanonical(b5, MAX_STRING);
    var b6 := GetString(b5, MAX_STRING).value.1;
    I64Canonical(b6);
    I64Canonical(GetI64(b6).value.1);
  }

  // ---- batches ----

  function PutAccum(a: Accum, rest: Bytes): Bytes {
    PutU32(a.count, PutU64(a.input, PutU64(a.output, PutU64(a.work, PutU64(a.memory, rest)))))
  }

  function GetAccum(b: Bytes): Option<(Accum, Bytes)> {
    var (count, b1) :- GetU32(b);
    var (input, b2) :- GetU64(b1);
    var (output, b3) :- GetU64(b2);
    var (work, b4) :- GetU64(b3);
    var (memory, b5) :- GetU64(b4);
    Some((Accum(count, input, output, work, memory), b5))
  }

  lemma AccumRoundTrip(a: Accum, rest: Bytes)
    ensures GetAccum(PutAccum(a, rest)) == Some((a, rest))
  {
    hide PutU32, GetU32, PutU64, GetU64;
    var r4 := PutU64(a.memory, rest);
    var r3 := PutU64(a.work, r4);
    var r2 := PutU64(a.output, r3);
    U32RoundTrip(a.count, PutU64(a.input, r2));
    U64RoundTrip(a.input, r2);
    U64RoundTrip(a.output, r3);
    U64RoundTrip(a.work, r4);
    U64RoundTrip(a.memory, rest);
  }

  lemma AccumCanonical(b: Bytes)
    requires GetAccum(b).Some?
    ensures b == PutAccum(GetAccum(b).value.0, GetAccum(b).value.1)
  {
    hide PutU32, GetU32, PutU64, GetU64;
    U32Canonical(b);
    var b1 := GetU32(b).value.1;
    U64Canonical(b1);
    var b2 := GetU64(b1).value.1;
    U64Canonical(b2);
    var b3 := GetU64(b2).value.1;
    U64Canonical(b3);
    U64Canonical(GetU64(b3).value.1);
  }

  function PutStamps(s: Stamps, rest: Bytes): Bytes {
    PutI64(s.formed, PutI64(s.closed, PutI64(s.dispatched, PutI64(s.completed,
      PutU8(s.reason, PutU64(s.worker, PutU64(s.boot, rest)))))))
  }

  function GetStamps(b: Bytes): Option<(Stamps, Bytes)> {
    var (formed, b1) :- GetI64(b);
    var (closed, b2) :- GetI64(b1);
    var (dispatched, b3) :- GetI64(b2);
    var (completed, b4) :- GetI64(b3);
    var (reason, b5) :- GetU8(b4);
    if reason > 10 then None else
    var (worker, b6) :- GetU64(b5);
    var (boot, b7) :- GetU64(b6);
    Some((Stamps(formed, closed, dispatched, completed, reason, worker, boot), b7))
  }

  lemma StampsRoundTrip(s: Stamps, rest: Bytes)
    requires s.reason <= 10
    ensures GetStamps(PutStamps(s, rest)) == Some((s, rest))
  {
    hide PutI64, GetI64, PutU8, GetU8, PutU64, GetU64;
    var r6 := PutU64(s.boot, rest);
    var r5 := PutU64(s.worker, r6);
    var r4 := PutU8(s.reason, r5);
    var r3 := PutI64(s.completed, r4);
    var r2 := PutI64(s.dispatched, r3);
    I64RoundTrip(s.formed, PutI64(s.closed, r2));
    I64RoundTrip(s.closed, r2);
    I64RoundTrip(s.dispatched, r3);
    I64RoundTrip(s.completed, r4);
    U8RoundTrip(s.reason, r5);
    U64RoundTrip(s.worker, r6);
    U64RoundTrip(s.boot, rest);
  }

  lemma StampsCanonical(b: Bytes)
    requires GetStamps(b).Some?
    ensures GetStamps(b).value.0.reason <= 10 && b == PutStamps(GetStamps(b).value.0, GetStamps(b).value.1)
  {
    hide PutI64, GetI64, PutU8, GetU8, PutU64, GetU64;
    I64Canonical(b);
    var b1 := GetI64(b).value.1;
    I64Canonical(b1);
    var b2 := GetI64(b1).value.1;
    I64Canonical(b2);
    var b3 := GetI64(b2).value.1;
    I64Canonical(b3);
    var b4 := GetI64(b3).value.1;
    U8Canonical(b4);
    var b5 := GetU8(b4).value.1;
    U64Canonical(b5);
    U64Canonical(GetU64(b5).value.1);
  }

  /** The lineage as it is saved: each list after its own count. */
  function PutLineage(parents: seq<U64>, children: seq<U64>, rest: Bytes): Bytes {
    PutCounted(parents, PutCounted(children, rest))
  }

  /** The lineage as the reader expects it: both counts first. */
  function PutLineageExpected(parents: seq<U64>, children: seq<U64>, rest: Bytes): Bytes {
    PutU64(|parents|, PutU64(|children|, PutIds(parents, PutIds(children, rest))))
  }

  function GetLineage(b: Bytes): Option<((seq<U64>, seq<U64>), Bytes)> {
    var (np, b1) :- GetU64(b);
    var (nc, b2) :- GetU64(b1);
    if np > MAX_RECORDS || nc > MAX_RECORDS then None else
    var (parents, b3) :- GetIds(b2, np);
    var (children, b4) :- GetIds(b3, nc);
    Some(((parents, children), b4))
  }

  lemma LineageRoundTrip(parents: seq<U64>, children: seq<U64>, rest: Bytes)
    requires |parents| <= MAX_RECORDS && |children| <= MAX_RECORDS
    ensures GetLineage(PutLineageExpected(parents, children, rest)) == Some(((parents, children), rest))
  {
    hide PutU64, GetU64, PutIds, GetIds;
    var r2 := PutIds(children, rest);
    var r1 := PutIds(parents, r2);
    U64RoundTrip(|parents|, PutU64(|children|, r1));
    U64RoundTrip(|children|, r1);
    IdsRoundTrip(parents, r2);
    IdsRoundTrip(children, rest);
  }

  lemma LineageCanonical(b: Bytes)
    requires GetLineage(b).Some?
    ensures var ((ps, cs), rest) := GetLineage(b).value;
            b == PutLineageExpected(ps, cs, rest) && |ps| <= MAX_RECORDS && |cs| <= MAX_RECORDS
  {
    hide PutU64, GetU64, PutIds, GetIds;
    U64Canonical(b);
    var (np, b1) := GetU64(b).value;
    U64Canonical(b1);
    var (nc, b2) := GetU64(b1).value;
    IdsCanonical(b2, np);
    IdsCanonical(GetIds(b2, np).value.1, nc);
  }

  /** A batch with `lineage` standing for its last part and all that follows. */
  function PutBatchTo(b: SavedBatch, lineage: Bytes): Bytes {
    PutU64(b.id, PutU64(b.generation, PutU64(b.epoch, PutU8(b.state, b.key +
      PutCounted(b.members, PutAccum(b.used, PutStamps(b.stamps, lineage)))))))
  }

  function PutBatch(b: SavedBatch, rest: Bytes): Bytes { PutBatchTo(b, PutLineage(b.parents, b.children, rest)) }

  function PutBatchExpected(b: SavedBatch, rest: Bytes): Bytes {
    PutBatchTo(b, PutLineageExpected(b.parents, b.children, rest))
  }

  function GetKey(b: Bytes): Option<(Key, Bytes)> { if |b| < 32 then None else Some((b[..32], b[32..])) }

  /** Everything before the lineage; the lineage fields are left empty. */
  function GetBatchHead(b: Bytes): Option<(SavedBatch, Bytes)> {
    var (id, b1) :- GetU64(b);
    var (generation, b2) :- GetU64(b1);
    var (epoch, b3) :- GetU64(b2);
    var (state, b4) :- GetU8(b3);
    var (key, b5) :- GetKey(b4);
    if state > 8 then None else
    var (members, b6) :- GetCounted(b5, MAX_RECORDS);
    var (used, b7) :- GetAccum(b6);
    var (stamps, b8) :- GetStamps(b7);
    Some((SavedBatch(id, generation, epoch, state, key, members, used, stamps, [], []), b8))
  }

  function GetBatch(b: Bytes): Option<(SavedBatch, Bytes)> {
    var (head, b1) :- GetBatchHead(b);
    var ((parents, children), b2) :- GetLineage(b1);
    Some((head.(parents := parents, children := children), b2))
  }

  predicate HeadFits(b: SavedBatch) {
    b.state <= 8 && |b.key| == 32 && |b.members| <= MAX_RECORDS && b.stamps.reason <= 10
  }

  predicate BatchFits(b: SavedBatch) {
    HeadFits(b) && |b.parents| <= MAX_RECORDS && |b.children| <= MAX_RECORDS
  }

  lemma HeadRoundTrip(b: SavedBatch, lineage: Bytes)
    requires HeadFits(b)
    ensures GetBatchHead(PutBatchTo(b, lineage)) == Some((b.(parents := [], children := []), lineage))
  {
    hide PutU64, GetU64, PutU8, GetU8, PutCounted, GetCounted, PutAccum, GetAccum, PutStamps, GetStamps;
    var r7 := PutStamps(b.stamps, lineage);
    var r6 := PutAccum(b.used, r7);
    var r5 := PutCounted(b.members, r6);
    var r4 := b.key + r5;
    var r3 := PutU8(b.state, r4);
    var r2 := PutU64(b.epoch, r3);
    U64RoundTrip(b.id, PutU64(b.generation, r2));
    U64RoundTrip(b.generation, r2);
    U64RoundTrip(b.epoch, r3);
    U8RoundTrip(b.state, r4);
    assert r4[..32] == b.key && r4[32..] == r5;
    CountedRoundTrip(b.members, r6, MAX_RECORDS);
    AccumRoundTrip(b.used, r7);
    StampsRoundTrip(b.stamps, lineage);
  }

  lemma HeadCanonical(b: Bytes)
    requires GetBatchHead(b).Some?
    ensures HeadFits(GetBatchHead(b).value.0) && b == PutBatchTo(GetBatchHead(b).value.0, GetBatchHead(b).value.1)
  {
    hide PutU64, GetU64, PutU8, GetU8, PutCounted, GetCounted, PutAccum, GetAccum, PutStamps, GetStamps;
    U64Canonical(b);
    var b1 := GetU64(b).value.1;
    U64Canonical(b1);
    var b2 := GetU64(b1).value.1;
    U64Canonical(b2);
    var b3 := GetU64(b2).value.1;
    U8Canonical(b3);
    var b4 := GetU8(b3).value.1;
    assert b4 == b4[..32] + b4[32..];
    CountedCanonical(b4[32..], MAX_RECORDS);
    var b6 := GetCounted(b4[32..], MAX_RECORDS).value.1;
    AccumCanonical(b6);
    StampsCanonical(GetAccum(b6).value.1);
  }

  lemma BatchRoundTrip(b: SavedBatch, rest: Bytes)
    requires BatchFits(b)
    ensures GetBatch(PutBatchExpected(b, rest)) == Some((b, rest))
  {
    hide PutBatchTo, GetBatchHead, PutLineageExpected, GetLineage;
    HeadRoundTrip(b, PutLineageExpected(b.parents, b.children, rest));
    LineageRoundTrip(b.parents, b.children, rest);
  }

  lemma BatchCanonical(b: Bytes)
    requires GetBatch(b).Some?
    ensures BatchFits(GetBatch(b).value.0) && b == PutBatchExpected(GetBatch(b).value.0, GetBatch(b).value.1)
  {
    hide GetBatchHead, PutLineageExpected, GetLineage, PutU64, PutU8, PutCounted, PutAccum, PutStamps;
    HeadCanonical(b);
    LineageCanonical(GetBatchHead(b).value.1);
  }

  // ---- what is written does not depend on what follows ----

  lemma CountedAppend(xs: seq<U64>, a: Bytes, b: Bytes)
    ensures PutCounted(xs, a + b) == PutCounted(xs, a) + b
  {
    hide PutInt, PutIds;
    IdsAppend(xs, a, b);
    IntAppend(|xs|, 8, PutIds(xs, a), b);
  }

  lemma RequestAppend(r: SavedRequest, a: Bytes, b: Bytes)
    ensures PutRequest(r, a + b) == PutRequest(r, a) + b
  {
    hide PutInt, PutU8, PutMeta, PutCounted;
    var a6 := PutCounted(r.attempts, a);
    var a5 := PutU64(r.attempt, a6);
    var a4 := PutU64(r.batch, a5);
    var a3 := PutI64(r.submitted, a4);
    var a2 := PutU8(r.state, a3);
    CountedAppend(r.attempts, a, b);
    IntAppend(r.attempt, 8, a6, b);
    IntAppend(r.batch, 8, a5, b);
    IntAppend(Unsigned(r.submitted), 8, a4, b);
    U8Append(r.state, a3, b);
    MetaAppend(r.meta, a2, b);
    IntAppend(r.id, 8, PutMeta(r.meta, a2), b);
  }

  lemma AttemptAppend(x: SavedAttempt, a: Bytes, b: Bytes)
    ensures PutAttempt(x, a + b) == PutAttempt(x, a) + b
  {
    hide PutInt, PutU8, PutString;
    var a7 := PutI64(x.completed, a);
    var a6 := PutI64(x.started, a7);
    var a5 := PutString(x.result, a6);
    var a4 := PutU8(x.outcome, a5);
    var a3 := PutU64(x.batch, a4);
    var a2 := PutU8(x.state, a3);
    IntAppend(Unsigned(x.completed), 8, a, b);
    IntAppend(Unsigned(x.started), 8, a7, b);
    StringAppend(x.result, a6, b);
    U8Append(x.outcome, a5, b);
    IntAppend(x.batch, 8, a4, b);
    U8Append(x.state, a3, b);
    IntAppend(x.number, 4, a2, b);
    IntAppend(x.id, 8, PutU32(x.number, a2), b);
  }

  lemma AccumAppend(u: Accum, a: Bytes, b: Bytes)
    ensures PutAccum(u, a + b) == PutAccum(u, a) + b
  {
    hide PutInt;
    var a4 := PutU64(u.memory, a);
    var a3 := PutU64(u.work, a4);
    var a2 := PutU64(u.output, a3);
    IntAppend(u.memory, 8, a, b);
    IntAppend(u.work, 8, a4, b);
    IntAppend(u.output, 8, a3, b);
    IntAppend(u.input, 8, a2, b);
    IntAppend(u.count, 4, PutU64(u.input, a2), b);
  }

  lemma StampsAppend(s: Stamps, a: Bytes, b: Bytes)
    ensures PutStamps(s, a + b) == PutStamps(s, a) + b
  {
    hide PutInt, PutU8;
    var a6 := PutU64(s.boot, a);
    var a5 := PutU64(s.worker, a6);
    var a4 := PutU8(s.reason, a5);
    var a3 := PutI64(s.completed, a4);
    var a2 := PutI64(s.dispatched, a3);
    IntAppend(s.boot, 8, a, b);
    IntAppend(s.worker, 8, a6, b);
    U8Append(s.reason, a5, b);
    IntAppend(Unsigned(s.completed), 8, a4, b);
    IntAppend(Unsigned(s.dispatched), 8, a3, b);
    IntAppend(Unsigned(s.closed), 8, a2, b);
    IntAppend(Unsigned(s.formed), 8, PutI64(s.closed, a2), b);
  }

  lemma BatchToAppend(x: SavedBatch, a: Bytes, b: Bytes)
    ensures PutBatchTo(x, a + b) == PutBatchTo(x, a) + b
  {
    hide PutInt, PutU8, PutCounted, PutAccum, PutStamps;
    var a7 := PutStamps(x.stamps, a);
    var a6 := PutAccum(x.used, a7);
    var a5 := PutCounted(x.members, a6);
    var a3 := PutU8(x.state, x.key + a5);
    var a2 := PutU64(x.epoch, a3);
    StampsAppend(x.stamps, a, b);
    AccumAppend(x.used, a7, b);
    CountedAppend(x.members, a6, b);
    assert x.key + (a5 + b) == (x.key + a5) + b;
    U8Append(x.state, x.key + a5, b);
    IntAppend(x.epoch, 8, a3, b);
    IntAppend(x.generation, 8, a2, b);
    IntAppend(x.id, 8, PutU64(x.generation, a2), b);
  }

  lemma BatchExpectedAppend(x: SavedBatch, a: Bytes, b: Bytes)
    ensures PutBatchExpected(x, a + b) == PutBatchExpected(x, a) + b
  {
    hide PutBatchTo, PutInt, PutIds;
    var a3 := PutIds(x.children, a);
    var a2 := PutIds(x.parents, a3);
    IdsAppend(x.children, a, b);
    IdsAppend(x.parents, a3, b);
    IntAppend(|x.children|, 8, a2, b);
    IntAppend(|x.parents|, 8, PutU64(|x.children|, a2), b);
    BatchToAppend(x, PutLineageExpected(x.parents, x.children, a), b);
  }

  // ---- the two orders of the lineage ----

  /** The saved order and the expected order give the same bytes exactly here. */
  predicate LineageReadable(b: SavedBatch) {
    forall p :: p in b.parents ==> p == |b.children|
  }

  lemma {:induction false} IdsConcat(xs: seq<U64>, ys: seq<U64>, rest: Bytes)
    ensures PutIds(xs + ys, rest) == PutIds(xs, PutIds(ys, rest))
  {
    hide PutU64;
    if xs == [] {
      assert xs + ys == ys;
    } else {
      assert (xs + ys)[1..] == xs[1..] + ys;
      IdsConcat(xs[1..], ys, rest);
    }
  }

  /** Moving `n` from behind `xs` to its front changes nothing exactly when every
      element is `n`. */
  lemma Rotation(xs: seq<U64>, n: U64)
    ensures xs + [n] == [n] + xs <==> forall x :: x in xs ==> x == n
  {
    if xs + [n] == [n] + xs {
      for i := 0 to |xs|
        invariant forall k :: 0 <= k < i ==> xs[k] == n
      {
        assert (xs + [n])[i] == ([n] + xs)[i];
      }
    }
    if forall x :: x in xs ==> x == n {
      forall i | 0 <= i <= |xs| ensures (xs + [n])[i] == n && ([n] + xs)[i] == n {
        if i < |xs| { assert xs[i] in xs; }
        if i > 0 { assert xs[i - 1] in xs; }
      }
    }
  }

  /** The lineage as one list of numbers behind the count of parents. */
  lemma LineageAsIds(b: SavedBatch, rest: Bytes)
    requires |b.children| <= ANY_LENGTH
    ensures PutLineage(b.parents, b.children, rest)
            == PutU64(|b.parents|, PutIds(b.parents + [|b.children|] + b.children, rest))
    ensures PutLineageExpected(b.parents, b.children, rest)
            == PutU64(|b.parents|, PutIds([|b.children|] + b.parents + b.children, rest))
  {
    hide PutU64;
    var n := |b.children|;
    var tail := PutIds(b.children, rest);
    IdsConcat(b.parents + [n], b.children, rest);
    IdsConcat(b.parents, [n], tail);
    IdsConcat([n] + b.parents, b.children, rest);
    IdsConcat([n], b.parents, tail);
    UnfoldSingle(n, tail);
    UnfoldSingle(n, PutIds(b.parents, tail));
    hide PutIds;
  }

  lemma UnfoldSingle(n: U64, rest: Bytes)
    ensures PutIds([n], rest) == PutU64(n, rest)
  {
    hide PutU64;
    assert [n][1..] == [];
  }

  lemma SameLineage(b: SavedBatch, rest: Bytes)
    requires |b.children| <= ANY_LENGTH && LineageReadable(b)
    ensures PutBatch(b, rest) == PutBatchExpected(b, rest)
  {
    hide PutBatchTo, PutLineage, PutLineageExpected, PutIds, PutU64;
    LineageAsIds(b, rest);
    Rotation(b.parents, |b.children|);
  }

  /** Conversely, equal bytes mean a readable lineage. */
  lemma LineageDecides(b: SavedBatch, x: Bytes, y: Bytes)
    requires BatchFits(b) && PutBatch(b, x) == PutBatchExpected(b, y)
    ensures LineageReadable(b) && x == y
  {
    hide PutBatchTo, GetBatchHead, PutLineage, PutLineageExpected, PutIds, GetIds, PutU64, GetU64;
    HeadRoundTrip(b, PutLineage(b.parents, b.children, x));
    HeadRoundTrip(b, PutLineageExpected(b.parents, b.children, y));
    LineageAsIds(b, x);
    LineageAsIds(b, y);
    var n := |b.children|;
    var saved, expected := b.parents + [n] + b.children, [n] + b.parents + b.children;
    U64RoundTrip(|b.parents|, PutIds(saved, x));
    U64RoundTrip(|b.parents|, PutIds(expected, y));
    IdsRoundTrip(saved, x);
    IdsRoundTrip(expected, y);
    assert saved == expected && x == y;
    assert b.parents + [n] == saved[..|b.parents| + 1] && [n] + b.parents == expected[..|b.parents| + 1];
    Rotation(b.parents, n);
  }
}
