/** The whole state file: header, tables, fairness records and checksum; the
    validator, and exactly when what was saved is read back. */
module StateFile {
  import opened Types
  import opened Octets
  import opened Identity
  import opened Lists
  import opened Persistence
  import Sha256Spec

  // ---- header ----

  datatype Header = Header(counters: Counters, requests: U64, attempts: U64, batches: U64)

  function PutCounters(c: Counters, rest: Bytes): Bytes {
    PutU64(c.epoch, PutU64(c.nextRequest, PutU64(c.nextBatch, PutU64(c.nextAttempt, PutU64(c.nextGeneration, rest)))))
  }

  function GetCounters(b: Bytes): Option<(Counters, Bytes)> {
    var (epoch, b1) :- GetU64(b);
    var (nextRequest, b2) :- GetU64(b1);
    var (nextBatch, b3) :- GetU64(b2);
    var (nextAttempt, b4) :- GetU64(b3);
    var (nextGeneration, b5) :- GetU64(b4);
    Some((Counters(epoch, nextRequest, nextBatch, nextAttempt, nextGeneration), b5))
  }

  lemma CountersRoundTrip(c: Counters, rest: Bytes)
    ensures GetCounters(PutCounters(c, rest)) == Some((c, rest))
  {
    hide PutU64, GetU64;
    var r4 := PutU64(c.nextGeneration, rest);
    var r3 := PutU64(c.nextAttempt, r4);
    var r2 := PutU64(c.nextBatch, r3);
    U64RoundTrip(c.epoch, PutU64(c.nextRequest, r2));
    U64RoundTrip(c.nextRequest, r2);
    U64RoundTrip(c.nextBatch, r3);
    U64RoundTrip(c.nextAttempt, r4);
    U64RoundTrip(c.nextGeneration, rest);
  }

  lemma CountersCanonical(b: Bytes)
    requires GetCounters(b).Some?
    ensures b == PutCounters(GetCounters(b).value.0, GetCounters(b).value.1)
  {
    hide PutU64, GetU64;
    U64Canonical(b);
    var b1 := GetU64(b).value.1;
    U64Canonical(b1);
    var b2 := GetU64(b1).value.1;
    U64Canonical(b2);
    var b3 := GetU64(b2).value.1;
    U64Canonical(b3);
    U64Canonical(GetU64(b3).value.1);
  }

  function PutHeader(h: Header, rest: Bytes): Bytes {
    PutU32(MAGIC, PutU32(VERSION, PutCounters(h.counters, PutU64(h.requests, PutU64(h.attempts, PutU64(h.batches, rest))))))
  }

  function GetHeader(b: Bytes): Option<(Header, Bytes)> {
    var (magic, b1) :- GetU32(b);
    var (version, b2) :- GetU32(b1);
    if magic != MAGIC || version != VERSION then None else
    var (counters, b3) :- GetCounters(b2);
    var (requests, b4) :- GetU64(b3);
    var (attempts, b5) :- GetU64(b4);
    var (batches, b6) :- GetU64(b5);
    if requests > MAX_RECORDS || batches > MAX_RECORDS || attempts > MAX_RECORDS then None else
    Some((Header(counters, requests, attempts, batches), b6))
  }

  predicate HeaderFits(h: Header) { h.requests <= MAX_RECORDS && h.attempts <= MAX_RECORDS && h.batches <= MAX_RECORDS }

  lemma HeaderRoundTrip(h: Header, rest: Bytes)
    requires HeaderFits(h)
    ensures GetHeader(PutHeader(h, rest)) == Some((h, rest))
  {
    hide PutU32, GetU32, PutU64, GetU64, PutCounters, GetCounters;
    var r5 := PutU64(h.batches, rest);
    var r4 := PutU64(h.attempts, r5);
    var r3 := PutU64(h.requests, r4);
    var r2 := PutCounters(h.counters, r3);
    U32RoundTrip(MAGIC, PutU32(VERSION, r2));
    U32RoundTrip(VERSION, r2);
    CountersRoundTrip(h.counters, r3);
    U64RoundTrip(h.requests, r4);
    U64RoundTrip(h.attempts, r5);
    U64RoundTrip(h.batches, rest);
  }

  lemma HeaderCanonical(b: Bytes)
    requires GetHeader(b).Some?
    ensures HeaderFits(GetHeader(b).value.0) && b == PutHeader(GetHeader(b).value.0, GetHeader(b).value.1)
  {
    hide PutU32, GetU32, PutU64, GetU64, PutCounters, GetCounters;
    U32Canonical(b);
    var b1 := GetU32(b).value.1;
    U32Canonical(b1);
    var b2 := GetU32(b1).value.1;
    CountersCanonical(b2);
    var b3 := GetCounters(b2).value.1;
    U64Canonical(b3);
    var b4 := GetU64(b3).value.1;
    U64Canonical(b4);
    U64Canonical(GetU64(b4).value.1);
  }

  // ---- fairness records ----

  function PutPair(p: (Bytes, U64), rest: Bytes): Bytes { PutString(p.0, PutU64(p.1, rest)) }

  function GetPair(b: Bytes): Option<((Bytes, U64), Bytes)> {
    var (k, b1) :- GetString(b, MAX_STRING);
    var (v, b2) :- GetU64(b1);
    Some(((k, v), b2))
  }

  predicate PairFits(p: (Bytes, U64)) { |p.0| <= MAX_STRING }

  function PutServed(ps: Listing, rest: Bytes): Bytes { PutU64(|ps|, PutList(PutPair, ps, rest)) }

  function GetServed(b: Bytes): Option<(Listing, Bytes)> {
    var (n, b1) :- GetU64(b);
    if n > MAX_RECORDS then None else GetList(GetPair, b1, n)
  }

  predicate ServedFits(ps: Listing) { |ps| <= MAX_RECORDS && forall p :: p in ps ==> PairFits(p) }

  lemma PairRoundTrip(p: (Bytes, U64), rest: Bytes)
    requires PairFits(p)
    ensures GetPair(PutPair(p, rest)) == Some((p, rest))
  {
    hide PutString, GetString, PutU64, GetU64;
    StringRoundTrip(p.0, PutU64(p.1, rest), MAX_STRING);
    U64RoundTrip(p.1, rest);
  }

  lemma PairCanonical(b: Bytes)
    requires GetPair(b).Some?
    ensures PairFits(GetPair(b).value.0) && b == PutPair(GetPair(b).value.0, GetPair(b).value.1)
  {
    hide PutString, GetString, PutU64, GetU64;
    StringCanonical(b, MAX_STRING);
    U64Canonical(GetString(b, MAX_STRING).value.1);
  }

  lemma ServedRoundTrip(ps: Listing, rest: Bytes)
    requires ServedFits(ps)
    ensures GetServed(PutServed(ps, rest)) == Some((ps, rest))
  {
    hide PutU64, GetU64, PutPair, GetPair, PairFits, PutList, GetList;
    forall p, r | PairFits(p) ensures GetPair(PutPair(p, r)) == Some((p, r)) { PairRoundTrip(p, r); }
    U64RoundTrip(|ps|, PutList(PutPair, ps, rest));
    ListRoundTrip(PutPair, GetPair, PairFits, ps, rest);
  }

  lemma ServedCanonical(b: Bytes)
    requires GetServed(b).Some?
    ensures ServedFits(GetServed(b).value.0) && b == PutServed(GetServed(b).value.0, GetServed(b).value.1)
  {
    hide PutU64, GetU64, PutPair, GetPair, PairFits, PutList, GetList;
    forall b | GetPair(b).Some?
      ensures PairFits(GetPair(b).value.0) && b == PutPair(GetPair(b).value.0, GetPair(b).value.1)
    { PairCanonical(b); }
    U64Canonical(b);
    var (n, b1) := GetU64(b).value;
    ListCanonical(PutPair, GetPair, PairFits, b1, n);
  }

  /** Assigning the records one after another: a later one overwrites. */
  function MapOf(ps: Listing): map<Bytes, U64> {
    if ps == [] then map[] else MapOf(ps[..|ps| - 1])[ps[|ps| - 1].0 := ps[|ps| - 1].1]
  }

  // ---- the body ----

  function HeaderOf(t: Tables): Header
    requires Countable(t)
  {
    Header(t.counters, |t.requests|, |t.attempts|, |t.batches|)
  }

  /** Vector sizes fit in 64 bits. */
  predicate Countable(t: Tables) {
    |t.requests| <= ANY_LENGTH && |t.attempts| <= ANY_LENGTH && |t.batches| <= ANY_LENGTH
  }

  /** The body, with batches written by `putBatch`. */
  function PutBody(putBatch: (SavedBatch, Bytes) -> Bytes, t: Tables, ps: Listing, rest: Bytes): Bytes
    requires Countable(t)
  {
    PutHeader(HeaderOf(t), PutList(PutRequest, t.requests, PutList(PutAttempt, t.attempts,
      PutList(putBatch, t.batches, PutServed(ps, rest)))))
  }

  function GetBody(b: Bytes): Option<((Tables, Listing), Bytes)> {
    var (h, b1) :- GetHeader(b);
    var (requests, b2) :- GetList(GetRequest, b1, h.requests);
    var (attempts, b3) :- GetList(GetAttempt, b2, h.attempts);
    var (batches, b4) :- GetList(GetBatch, b3, h.batches);
    var (ps, b5) :- GetServed(b4);
    Some(((Tables(h.counters, requests, attempts, batches), ps), b5))
  }

  predicate RequestsFit(rs: seq<SavedRequest>) { |rs| <= MAX_RECORDS && forall r :: r in rs ==> RequestFits(r) }

  predicate AttemptsFit(xs: seq<SavedAttempt>) { |xs| <= MAX_RECORDS && forall x :: x in xs ==> AttemptFits(x) }

  predicate BatchesFit(bs: seq<SavedBatch>) { |bs| <= MAX_RECORDS && forall b :: b in bs ==> BatchFits(b) }

  /** The reader's limits. */
  predicate TablesFit(t: Tables) { RequestsFit(t.requests) && AttemptsFit(t.attempts) && BatchesFit(t.batches) }

  lemma RequestsRoundTrip(rs: seq<SavedRequest>, rest: Bytes)
    requires RequestsFit(rs)
    ensures GetList(GetRequest, PutList(PutRequest, rs, rest), |rs|) == Some((rs, rest))
  {
    hide PutRequest, GetRequest, RequestFits, PutList, GetList;
    forall r, s | RequestFits(r) ensures GetRequest(PutRequest(r, s)) == Some((r, s)) { RequestRoundTrip(r, s); }
    ListRoundTrip(PutRequest, GetRequest, RequestFits, rs, rest);
  }

  lemma RequestsCanonical(b: Bytes, n: nat)
    requires n <= MAX_RECORDS && GetList(GetRequest, b, n).Some?
    ensures var (rs, rest) := GetList(GetRequest, b, n).value;
            |rs| == n && RequestsFit(rs) && b == PutList(PutRequest, rs, rest)
  {
    hide PutRequest, GetRequest, RequestFits, PutList, GetList;
    forall b | GetRequest(b).Some?
      ensures RequestFits(GetRequest(b).value.0) && b == PutRequest(GetRequest(b).value.0, GetRequest(b).value.1)
    { RequestCanonical(b); }
    ListCanonical(PutRequest, GetRequest, RequestFits, b, n);
  }

  lemma AttemptsRoundTrip(xs: seq<SavedAttempt>, rest: Bytes)
    requires AttemptsFit(xs)
    ensures GetList(GetAttempt, PutList(PutAttempt, xs, rest), |xs|) == Some((xs, rest))
  {
    hide PutAttempt, GetAttempt, AttemptFits, PutList, GetList;
    forall x, s | AttemptFits(x) ensures GetAttempt(PutAttempt(x, s)) == Some((x, s)) { AttemptRoundTrip(x, s); }
    ListRoundTrip(PutAttempt, GetAttempt, AttemptFits, xs, rest);
  }

  lemma AttemptsCanonical(b: Bytes, n: nat)
    requires n <= MAX_RECORDS && GetList(GetAttempt, b, n).Some?
    ensures var (xs, rest) := GetList(GetAttempt, b, n).value;
            |xs| == n && AttemptsFit(xs) && b == PutList(PutAttempt, xs, rest)
  {
    hide PutAttempt, GetAttempt, AttemptFits, PutList, GetList;
    forall b | GetAttempt(b).Some?
      ensures AttemptFits(GetAttempt(b).value.0) && b == PutAttempt(GetAttempt(b).value.0, GetAttempt(b).value.1)
    { AttemptCanonical(b); }
    ListCanonical(PutAttempt, GetAttempt, AttemptFits, b, n);
  }

  lemma BatchesRoundTrip(bs: seq<SavedBatch>, rest: Bytes)
    requires BatchesFit(bs)
    ensures GetList(GetBatch, PutList(PutBatchExpected, bs, rest), |bs|) == Some((bs, rest))
  {
    hide PutBatchExpected, GetBatch, BatchFits, PutList, GetList;
    forall x, s | BatchFits(x) ensures GetBatch(PutBatchExpected(x, s)) == Some((x, s)) { BatchRoundTrip(x, s); }
    ListRoundTrip(PutBatchExpected, GetBatch, BatchFits, bs, rest);
  }

  lemma BatchesCanonical(b: Bytes, n: nat)
    requires n <= MAX_RECORDS && GetList(GetBatch, b, n).Some?
    ensures var (bs, rest) := GetList(GetBatch, b, n).value;
            |bs| == n && BatchesFit(bs) && b == PutList(PutBatchExpected, bs, rest)
  {
    hide PutBatchExpected, GetBatch, BatchFits, PutList, GetList;
    forall b | GetBatch(b).Some?
      ensures BatchFits(GetBatch(b).value.0) && b == PutBatchExpected(GetBatch(b).value.0, GetBatch(b).value.1)
    { BatchCanonical(b); }
    ListCanonical(PutBatchExpected, GetBatch, BatchFits, b, n);
  }

  lemma BodyRoundTrip(t: Tables, ps: Listing, rest: Bytes)
    requires TablesFit(t) && ServedFits(ps)
    ensures GetBody(PutBody(PutBatchExpected, t, ps, rest)) == Some(((t, ps), rest))
  {
    hide PutHeader, GetHeader, PutList, GetList, PutServed, GetServed, ServedFits, RequestFits, AttemptFits, BatchFits;
    var r3 := PutServed(ps, rest);
    var r2 := PutList(PutBatchExpected, t.batches, r3);
    var r1 := PutList(PutAttempt, t.attempts, r2);
    HeaderRoundTrip(HeaderOf(t), PutList(PutRequest, t.requests, r1));
    RequestsRoundTrip(t.requests, r1);
    AttemptsRoundTrip(t.attempts, r2);
    BatchesRoundTrip(t.batches, r3);
    ServedRoundTrip(ps, rest);
  }

  lemma BodyCanonical(b: Bytes)
    requires GetBody(b).Some?
    ensures var ((t, ps), rest) := GetBody(b).value;
            TablesFit(t) && ServedFits(ps) && b == PutBody(PutBatchExpected, t, ps, rest)
  {
    hide PutHeader, GetHeader, PutList, GetList, PutServed, GetServed, ServedFits, RequestFits, AttemptFits, BatchFits;
    HeaderCanonical(b);
    var (h, b1) := GetHeader(b).value;
    RequestsCanonical(b1, h.requests);
    var b2 := GetList(GetRequest, b1, h.requests).value.1;
    AttemptsCanonical(b2, h.attempts);
    var b3 := GetList(GetAttempt, b2, h.attempts).value.1;
    BatchesCanonical(b3, h.batches);
    ServedCanonical(GetList(GetBatch, b3, h.batches).value.1);
  }

  // ---- what the validator demands beyond the layout ----

  function Ids<T>(id: T -> U64, xs: seq<T>): seq<U64> { seq(|xs|, i requires 0 <= i < |xs| => id(xs[i])) }

  function RequestId(r: SavedRequest): U64 { r.id }

  function AttemptId(a: SavedAttempt): U64 { a.id }

  function BatchId(b: SavedBatch): U64 { b.id }

  predicate Distinct(ids: seq<U64>) { NoDup(ids) && 0 !in ids }

  predicate MembersKnown(bs: seq<SavedBatch>, ids: seq<U64>) {
    forall b, m :: b in bs && m in b.members ==> m in ids
  }

  predicate Active(b: SavedBatch) { b.state <= 4 }

  /** No request is listed by two batches that are not terminal. */
  predicate Disjoint(bs: seq<SavedBatch>) {
    forall b, c, m :: b in bs && c in bs && Active(b) && Active(c) && m in b.members && m in c.members ==> b.id == c.id
  }

  predicate Coherent(t: Tables) {
    && Distinct(Ids(RequestId, t.requests)) && Distinct(Ids(AttemptId, t.attempts)) && Distinct(Ids(BatchId, t.batches))
    && MembersKnown(t.batches, Ids(RequestId, t.requests)) && Disjoint(t.batches)
  }

  function Checked(body: Bytes): Bytes { body + Sha256Spec.Digest(body) }

  /** PersistenceStore::parse. Every refusal is the same error code. */
  function Parse(b: Bytes): Option<Runtime> {
    if |b| < 44 || Sha256Spec.Digest(b[..|b| - 32]) != b[|b| - 32..] then None else
    var ((t, ps), rest) :- GetBody(b);
    if |rest| != 32 || !Coherent(t) then None else Some(Runtime(t, MapOf(ps)))
  }

  /** kMaxRecords * 8 + 4096. */
  const MAX_FILE: nat := 8 * MAX_RECORDS + 4096

  /** PersistenceStore::load on a file with these bytes: the length is looked at before
      anything is parsed. */
  function Load(file: Bytes): Option<Runtime> { if |file| > MAX_FILE then None else Parse(file) }

  /** PersistenceStore::save, with the fairness map written in the order `ps`. */
  function Save(t: Tables, ps: Listing): Bytes
    requires Countable(t)
  {
    Checked(PutBody(PutBatch, t, ps, []))
  }

  // ---- what is written does not depend on what follows ----

  lemma HeaderAppend(h: Header, a: Bytes, b: Bytes)
    ensures PutHeader(h, a + b) == PutHeader(h, a) + b
  {
    hide PutInt;
    var a5 := PutU64(h.batches, a);
    var a4 := PutU64(h.attempts, a5);
    var a3 := PutU64(h.requests, a4);
    var a2 := PutCounters(h.counters, a3);
    IntAppend(h.batches, 8, a, b);
    IntAppend(h.attempts, 8, a5, b);
    IntAppend(h.requests, 8, a4, b);
    CountersAppend(h.counters, a3, b);
    hide PutCounters;
    IntAppend(VERSION, 4, a2, b);
    IntAppend(MAGIC, 4, PutU32(VERSION, a2), b);
  }

  lemma CountersAppend(c: Counters, a: Bytes, b: Bytes)
    ensures PutCounters(c, a + b) == PutCounters(c, a) + b
  {
    hide PutInt;
    var a4 := PutU64(c.nextGeneration, a);
    var a3 := PutU64(c.nextAttempt, a4);
    var a2 := PutU64(c.nextBatch, a3);
    IntAppend(c.nextGeneration, 8, a, b);
    IntAppend(c.nextAttempt, 8, a4, b);
    IntAppend(c.nextBatch, 8, a3, b);
    IntAppend(c.nextRequest, 8, a2, b);
    IntAppend(c.epoch, 8, PutU64(c.nextRequest, a2), b);
  }

  lemma ServedAppend(ps: Listing, a: Bytes, b: Bytes)
    ensures PutServed(ps, a + b) == PutServed(ps, a) + b
  {
    hide PutInt, PutList, PutString;
    forall p: (Bytes, U64), a, b ensures PutPair(p, a + b) == PutPair(p, a) + b {
      IntAppend(p.1, 8, a, b);
      StringAppend(p.0, PutU64(p.1, a), b);
    }
    hide PutPair;
    ListAppend(PutPair, ps, a, b);
    IntAppend(|ps|, 8, PutList(PutPair, ps, a), b);
  }

  lemma BodyAppend(putBatch: (SavedBatch, Bytes) -> Bytes, t: Tables, ps: Listing, b: Bytes)
    requires Countable(t)
    requires forall x, a, b :: putBatch(x, a + b) == putBatch(x, a) + b
    ensures PutBody(putBatch, t, ps, b) == PutBody(putBatch, t, ps, []) + b
  {
    hide PutHeader, PutList, PutServed, PutRequest, PutAttempt;
    forall x: SavedRequest, a, b ensures PutRequest(x, a + b) == PutRequest(x, a) + b { RequestAppend(x, a, b); }
    forall x: SavedAttempt, a, b ensures PutAttempt(x, a + b) == PutAttempt(x, a) + b { AttemptAppend(x, a, b); }
    assert [] + b == b;
    var a3 := PutServed(ps, []);
    var a2 := PutList(putBatch, t.batches, a3);
    var a1 := PutList(PutAttempt, t.attempts, a2);
    ServedAppend(ps, [], b);
    ListAppend(putBatch, t.batches, a3, b);
    ListAppend(PutAttempt, t.attempts, a2, b);
    ListAppend(PutRequest, t.requests, a1, b);
    HeaderAppend(HeaderOf(t), PutList(PutRequest, t.requests, a1), b);
  }

  lemma ExpectedAppend(t: Tables, ps: Listing, b: Bytes)
    requires Countable(t)
    ensures PutBody(PutBatchExpected, t, ps, b) == PutBody(PutBatchExpected, t, ps, []) + b
  {
    hide PutBatchExpected, PutBody;
    forall x: SavedBatch, a, b ensures PutBatchExpected(x, a + b) == PutBatchExpected(x, a) + b { BatchExpectedAppend(x, a, b); }
    BodyAppend(PutBatchExpected, t, ps, b);
  }

  // ---- the validator ----

  /** The bytes that stand for `t` and `ps` in the order the reader expects. */
  function Image(t: Tables, ps: Listing): Bytes
    requires Countable(t)
  {
    Checked(PutBody(PutBatchExpected, t, ps, []))
  }

  lemma BodyLength(putBatch: (SavedBatch, Bytes) -> Bytes, t: Tables, ps: Listing)
    requires Countable(t)
    ensures |PutBody(putBatch, t, ps, [])| >= 72
  {
    hide BigEndian, PutList, PutServed;
  }

  lemma ImageParses(t: Tables, ps: Listing)
    requires TablesFit(t) && Coherent(t) && ServedFits(ps)
    ensures Parse(Image(t, ps)) == Some(Runtime(t, MapOf(ps)))
  {
    hide TablesFit, Coherent, ServedFits, PutBody, GetBody, MapOf, Sha256Spec.Digest;
    assert Countable(t) by { FitIsCountable(t); }
    var body := PutBody(PutBatchExpected, t, ps, []);
    var check := Sha256Spec.Digest(body);
    var b := body + check;
    BodyLength(PutBatchExpected, t, ps);
    assert b[..|b| - 32] == body && b[|b| - 32..] == check;
    ExpectedAppend(t, ps, check);
    BodyRoundTrip(t, ps, check);
  }

  lemma FitIsCountable(t: Tables)
    requires TablesFit(t)
    ensures Countable(t)
  {
  }

  lemma AcceptedIsImage(b: Bytes) returns (ps: Listing)
    requires Parse(b).Some?
    ensures var t := Parse(b).value.tables;
            && TablesFit(t) && Coherent(t) && ServedFits(ps) && Parse(b).value.served == MapOf(ps)
            && Countable(t) && b == Image(t, ps)
  {
    hide TablesFit, Coherent, ServedFits, PutBody, GetBody, MapOf, Sha256Spec.Digest;
    BodyCanonical(b);
    var ((t, qs), rest) := GetBody(b).value;
    ps := qs;
    FitIsCountable(t);
    ExpectedAppend(t, ps, rest);
    var body := PutBody(PutBatchExpected, t, ps, []);
    assert b[..|b| - 32] == body && b[|b| - 32..] == rest;
  }

  /** Exactly the files the validator accepts, and what it makes of them: the bytes
      of tables within the limits whose ids are distinct and not null, whose members
      exist and whose active batches share no request, under a true checksum. */
  lemma ParseExact(b: Bytes, rt: Runtime)
    ensures Parse(b) == Some(rt)
            <==> && TablesFit(rt.tables) && Coherent(rt.tables)
                 && exists ps: Listing :: ServedFits(ps) && MapOf(ps) == rt.served && b == Image(rt.tables, ps)
  {
    hide TablesFit, Coherent, ServedFits, Image, MapOf, Parse, Countable;
    if TablesFit(rt.tables) { FitIsCountable(rt.tables); }
    if Parse(b) == Some(rt) { var ps := AcceptedIsImage(b); }
    if TablesFit(rt.tables) && Coherent(rt.tables) {
      forall ps: Listing | ServedFits(ps) && MapOf(ps) == rt.served && b == Image(rt.tables, ps)
        ensures Parse(b) == Some(rt)
      { ImageParses(rt.tables, ps); }
    }
  }

  // ---- saving and reading back ----

  /** `ps` lists the map, each key once, as iterating over a std::map does. */
  predicate Enumerates(ps: Listing, m: map<Bytes, U64>) {
    DistinctKeys(ps) && MapOf(ps) == m
  }

  /** What the C++ types guarantee of anything that is saved. */
  predicate Writable(rt: Runtime) {
    && Countable(rt.tables) && |rt.served| <= ANY_LENGTH && (forall k :: k in rt.served ==> |k| <= ANY_LENGTH)
    && forall b :: b in rt.tables.batches ==> |b.children| <= ANY_LENGTH
  }

  predicate LineagesReadable(bs: seq<SavedBatch>) { forall b :: b in bs ==> LineageReadable(b) }

  predicate MapFits(m: map<Bytes, U64>) { |m| <= MAX_RECORDS && forall k :: k in m ==> |k| <= MAX_STRING }

  /** What a caller can check before saving. */
  predicate Persistable(rt: Runtime) {
    TablesFit(rt.tables) && Coherent(rt.tables) && MapFits(rt.served) && LineagesReadable(rt.tables.batches)
  }

  lemma MapOfSnoc(qs: Listing, p: (Bytes, U64))
    ensures MapOf(qs + [p]) == MapOf(qs)[p.0 := p.1]
  {
    assert (qs + [p])[..|qs|] == qs;
  }

  function KeysOf(ps: Listing): set<Bytes> { set i | 0 <= i < |ps| :: ps[i].0 }

  predicate DistinctKeys(ps: Listing) { forall i, j :: 0 <= i < j < |ps| ==> ps[i].0 != ps[j].0 }

  lemma {:induction false} MapOfKeys(ps: Listing)
    ensures MapOf(ps).Keys == KeysOf(ps)
    ensures DistinctKeys(ps) ==> |MapOf(ps)| == |ps|
  {
    if ps != [] {
      var n := |ps| - 1;
      var qs, p := ps[..n], ps[n];
      assert ps == qs + [p];
      hide MapOf;
      MapOfKeys(qs);
      MapOfSnoc(qs, p);
      KeysOfSnoc(qs, p);
      assert MapOf(ps).Keys == MapOf(qs).Keys + {p.0};
      if DistinctKeys(ps) {
        assert |MapOf(ps).Keys| == |MapOf(qs).Keys| + 1;
      }
    } else {
      assert KeysOf(ps) == {};
    }
  }

  lemma KeysOfSnoc(qs: Listing, p: (Bytes, U64))
    ensures KeysOf(qs + [p]) == KeysOf(qs) + {p.0}
    ensures DistinctKeys(qs + [p]) ==> DistinctKeys(qs) && p.0 !in KeysOf(qs)
  {
    var ps := qs + [p];
    assert ps[|qs|] == p && forall i | 0 <= i < |qs| :: ps[i] == qs[i];
    forall k ensures k in KeysOf(ps) <==> k in KeysOf(qs) + {p.0} {
      if k in KeysOf(qs) {
        var i :| 0 <= i < |qs| && qs[i].0 == k;
        assert ps[i].0 == k;
      }
    }
    if DistinctKeys(ps) {
      forall i, j | 0 <= i < j < |qs| ensures qs[i].0 != qs[j].0 {
        assert ps[i].0 != ps[j].0;
      }
    }
  }

  lemma ListingFits(ps: Listing, m: map<Bytes, U64>)
    requires Enumerates(ps, m)
    ensures ServedFits(ps) <==> MapFits(m)
  {
    hide MapOf;
    MapOfKeys(ps);
    if MapFits(m) {
      forall p | p in ps ensures PairFits(p) { assert p.0 in KeysOf(ps); }
    }
    if ServedFits(ps) {
      forall k | k in m ensures |k| <= MAX_STRING {
        assert k in KeysOf(ps);
        var i :| 0 <= i < |ps| && ps[i].0 == k;
        assert PairFits(ps[i]);
      }
    }
  }

  lemma {:induction false} SameBatches(bs: seq<SavedBatch>, rest: Bytes)
    requires LineagesReadable(bs) && forall b :: b in bs ==> |b.children| <= ANY_LENGTH
    ensures PutList(PutBatch, bs, rest) == PutList(PutBatchExpected, bs, rest)
  {
    hide PutBatch, PutBatchExpected, LineageReadable;
    if bs != [] {
      assert bs[0] in bs && forall b :: b in bs[1..] ==> b in bs;
      SameLineage(bs[0], PutList(PutBatch, bs[1..], rest));
      SameBatches(bs[1..], rest);
    }
  }

  lemma {:induction false} BatchesDecide(bs: seq<SavedBatch>, x: Bytes, y: Bytes)
    requires (forall b :: b in bs ==> BatchFits(b)) && PutList(PutBatch, bs, x) == PutList(PutBatchExpected, bs, y)
    ensures LineagesReadable(bs) && x == y
  {
    hide PutBatch, PutBatchExpected, LineageReadable, BatchFits;
    if bs != [] {
      assert bs[0] in bs && forall b :: b in bs[1..] ==> b in bs;
      LineageDecides(bs[0], PutList(PutBatch, bs[1..], x), PutList(PutBatchExpected, bs[1..], y));
      BatchesDecide(bs[1..], x, y);
    }
  }

  lemma PairDecides(p: (Bytes, U64), x: Bytes, q: (Bytes, U64), y: Bytes)
    requires |p.0| <= ANY_LENGTH && |q.0| <= ANY_LENGTH && PutPair(p, x) == PutPair(q, y)
    ensures p == q && x == y
  {
    hide PutString, GetString, PutU64, GetU64;
    StringRoundTrip(p.0, PutU64(p.1, x), ANY_LENGTH);
    StringRoundTrip(q.0, PutU64(q.1, y), ANY_LENGTH);
    U64RoundTrip(p.1, x);
    U64RoundTrip(q.1, y);
  }

  lemma {:induction false} PairsInjective(ps: Listing, qs: Listing)
    requires |ps| == |qs| && PutList(PutPair, ps, []) == PutList(PutPair, qs, [])
    requires forall p :: p in ps + qs ==> |p.0| <= ANY_LENGTH
    ensures ps == qs
  {
    hide PutPair;
    if ps != [] {
      assert ps[0] in ps + qs && qs[0] in ps + qs;
      PairDecides(ps[0], PutList(PutPair, ps[1..], []), qs[0], PutList(PutPair, qs[1..], []));
      assert forall p :: p in ps[1..] + qs[1..] ==> p in ps + qs;
      PairsInjective(ps[1..], qs[1..]);
      assert ps == [ps[0]] + ps[1..] && qs == [qs[0]] + qs[1..];
    }
  }

  lemma ServedDecides(ps: Listing, qs: Listing)
    requires |ps| <= ANY_LENGTH && (forall p :: p in ps ==> |p.0| <= ANY_LENGTH)
    requires ServedFits(qs) && PutServed(ps, []) == PutServed(qs, [])
    ensures ps == qs
  {
    hide PutU64, GetU64, PutList;
    U64RoundTrip(|ps|, PutList(PutPair, ps, []));
    U64RoundTrip(|qs|, PutList(PutPair, qs, []));
    assert forall p :: p in qs ==> PairFits(p);
    PairsInjective(ps, qs);
  }

  /** Equal bodies in the two orders: all lineages are readable and the fairness
      records are the same. */
  lemma BodiesDecide(t: Tables, ps: Listing, qs: Listing)
    requires TablesFit(t) && ServedFits(qs) && |ps| <= ANY_LENGTH && (forall p :: p in ps ==> |p.0| <= ANY_LENGTH)
    requires PutBody(PutBatch, t, ps, []) == PutBody(PutBatchExpected, t, qs, [])
    ensures LineagesReadable(t.batches) && ps == qs
  {
    hide PutHeader, GetHeader, PutList, GetList, PutServed, RequestFits, AttemptFits, BatchFits, ServedFits, LineagesReadable;
    var x3, y3 := PutServed(ps, []), PutServed(qs, []);
    var x2, y2 := PutList(PutBatch, t.batches, x3), PutList(PutBatchExpected, t.batches, y3);
    var x1, y1 := PutList(PutAttempt, t.attempts, x2), PutList(PutAttempt, t.attempts, y2);
    HeaderRoundTrip(HeaderOf(t), PutList(PutRequest, t.requests, x1));
    HeaderRoundTrip(HeaderOf(t), PutList(PutRequest, t.requests, y1));
    RequestsRoundTrip(t.requests, x1);
    RequestsRoundTrip(t.requests, y1);
    AttemptsRoundTrip(t.attempts, x2);
    AttemptsRoundTrip(t.attempts, y2);
    BatchesDecide(t.batches, x3, y3);
    ServedDecides(ps, qs);
  }

  lemma CheckedInjective(x: Bytes, y: Bytes)
    requires Checked(x) == Checked(y)
    ensures x == y
  {
    hide Sha256Spec.Digest;
    assert |Checked(x)| == |x| + 32 && |Checked(y)| == |y| + 32;
    assert x == Checked(x)[..|x|] && y == Checked(y)[..|y|];
  }

  /** What is saved is parsed back unchanged exactly when the runtime is persistable;
      the last condition, on lineages, is there because the two sides disagree about
      where the second count stands. */
  lemma SaveParses(rt: Runtime, ps: Listing)
    requires Writable(rt) && Enumerates(ps, rt.served)
    ensures Parse(Save(rt.tables, ps)) == Some(rt) <==> Persistable(rt)
  {
    hide TablesFit, Coherent, ServedFits, MapFits, Parse, PutBody, Checked, MapOf, LineagesReadable;
    var t := rt.tables;
    ListingFits(ps, rt.served);
    if Persistable(rt) {
      SavedIsImage(rt, ps);
      ImageParses(t, ps);
    }
    if Parse(Save(t, ps)) == Some(rt) {
      var qs := AcceptedIsImage(Save(t, ps));
      CheckedInjective(PutBody(PutBatch, t, ps, []), PutBody(PutBatchExpected, t, qs, []));
      ListingSized(rt, ps);
      BodiesDecide(t, ps, qs);
    }
  }

  lemma SavedIsImage(rt: Runtime, ps: Listing)
    requires Writable(rt) && LineagesReadable(rt.tables.batches)
    ensures Save(rt.tables, ps) == Image(rt.tables, ps)
  {
    hide PutHeader, PutList, PutServed, Checked;
    SameBatches(rt.tables.batches, PutServed(ps, []));
  }

  lemma ListingSized(rt: Runtime, ps: Listing)
    requires Writable(rt) && Enumerates(ps, rt.served)
    ensures |ps| <= ANY_LENGTH && forall p :: p in ps ==> |p.0| <= ANY_LENGTH
  {
    hide MapOf;
    MapOfKeys(ps);
    forall p | p in ps ensures |p.0| <= ANY_LENGTH { assert p.0 in KeysOf(ps); }
  }

  /** In particular a batch with one non-null parent and no children never survives,
      such as the child of an open batch that has just been split. */
  lemma SplitChildIsLost(rt: Runtime, ps: Listing, b: SavedBatch, parent: U64)
    requires Writable(rt) && Enumerates(ps, rt.served)
    requires b in rt.tables.batches && b.parents == [parent] && b.children == [] && parent != 0
    ensures Parse(Save(rt.tables, ps)) != Some(rt)
  {
    hide TablesFit, Coherent, MapFits, Parse, Save, Writable, Enumerates;
    SaveParses(rt, ps);
    assert parent in b.parents && parent != |b.children|;
    assert !LineageReadable(b);
  }
}
