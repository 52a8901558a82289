/** How long a state file is. */
module Sizes {
  import opened Types
  import opened Octets
  import opened Identity
  import opened Wire
  import opened Persistence
  import opened StateFile
  import Sha256Spec

  function Sum<T>(size: T -> nat, xs: seq<T>): nat { if xs == [] then 0 else size(xs[0]) + Sum(size, xs[1..]) }

  function StringSize(s: Bytes): nat { 8 + |s| }

  function DescriptorSize(d: Descriptor): nat {
    26 + StringSize(d.model) + StringSize(d.revision) + StringSize(d.adapter) + StringSize(d.tokenizer)
    + StringSize(d.shape) + StringSize(d.sampling) + Sum(StringSize, d.extensions)
  }

  function MetaSize(m: Metadata): nat { 66 + DescriptorSize(m.descriptor) + StringSize(m.payload) }

  function RequestSize(r: SavedRequest): nat { 41 + MetaSize(r.meta) + 8 * |r.attempts| }

  function AttemptSize(a: SavedAttempt): nat { 38 + StringSize(a.result) }

  function BatchSize(b: SavedBatch): nat {
    134 + |b.key| + 8 * |b.members| + 8 * |b.parents| + 8 * |b.children|
  }

  function PairSize(p: (Bytes, U64)): nat { 8 + StringSize(p.0) }

  /** The length of the file that save writes. */
  function SavedSize(t: Tables, ps: Listing): nat {
    112 + Sum(RequestSize, t.requests) + Sum(AttemptSize, t.attempts) + Sum(BatchSize, t.batches) + Sum(PairSize, ps)
  }

  lemma {:induction false} ListLength<T(!new)>(put: (T, Bytes) -> Bytes, size: T -> nat, xs: seq<T>, rest: Bytes)
    requires forall x: T, b: Bytes :: |put(x, b)| == size(x) + |b|
    ensures |PutList(put, xs, rest)| == Sum(size, xs) + |rest|
  {
    if xs != [] { ListLength(put, size, xs[1..], rest); }
  }

  lemma {:induction false} StringsLength(xs: seq<Bytes>, rest: Bytes)
    ensures |PutStrings(xs, rest)| == Sum(StringSize, xs) + |rest|
  {
    hide BigEndian;
    if xs != [] { StringsLength(xs[1..], rest); }
  }

  lemma {:induction false} IdsLength(xs: seq<Id>, rest: Bytes)
    ensures |PutIds(xs, rest)| == 8 * |xs| + |rest|
  {
    hide BigEndian;
    if xs != [] { IdsLength(xs[1..], rest); }
  }

  lemma DescriptorLength(d: Descriptor, rest: Bytes)
    ensures |PutDescriptor(d, rest)| == DescriptorSize(d) + |rest|
  {
    hide BigEndian, PutStrings, Sum;
    StringsLength(d.extensions, rest);
  }

  lemma MetaLength(m: Metadata, rest: Bytes)
    ensures |PutMeta(m, rest)| == MetaSize(m) + |rest|
  {
    hide BigEndian, PutDescriptor, DescriptorSize;
    DescriptorLength(m.descriptor, PutEstimates(EstimatesOf(m), PutString(m.payload, rest)));
  }

  lemma RequestLength(r: SavedRequest, rest: Bytes)
    ensures |PutRequest(r, rest)| == RequestSize(r) + |rest|
  {
    hide BigEndian, PutMeta, MetaSize, PutIds;
    IdsLength(r.attempts, rest);
    MetaLength(r.meta, PutU8(r.state, PutI64(r.submitted, PutU64(r.batch, PutU64(r.attempt, PutCounted(r.attempts, rest))))));
  }

  lemma AttemptLength(a: SavedAttempt, rest: Bytes)
    ensures |PutAttempt(a, rest)| == AttemptSize(a) + |rest|
  {
    hide BigEndian;
  }

  lemma BatchLength(b: SavedBatch, rest: Bytes)
    ensures |PutBatch(b, rest)| == BatchSize(b) + |rest|
  {
    hide BigEndian, PutIds;
    IdsLength(b.children, rest);
    IdsLength(b.parents, PutCounted(b.children, rest));
    IdsLength(b.members, PutAccum(b.used, PutStamps(b.stamps, PutLineage(b.parents, b.children, rest))));
  }

  lemma PairLength(p: (Bytes, U64), rest: Bytes)
    ensures |PutPair(p, rest)| == PairSize(p) + |rest|
  {
    hide BigEndian;
  }

  lemma HeaderLength(h: Header, rest: Bytes)
    ensures |PutHeader(h, rest)| == 72 + |rest|
  {
    hide BigEndian;
  }

  lemma SavedLength(t: Tables, ps: Listing)
    requires Countable(t)
    ensures |Save(t, ps)| == SavedSize(t, ps)
  {
    hide BigEndian, PutRequest, PutAttempt, PutBatch, PutPair, PutHeader, RequestSize, AttemptSize, BatchSize, PairSize, PutList, Sum, Sha256Spec.Digest;
    forall r: SavedRequest, b ensures |PutRequest(r, b)| == RequestSize(r) + |b| { RequestLength(r, b); }
    forall a: SavedAttempt, b ensures |PutAttempt(a, b)| == AttemptSize(a) + |b| { AttemptLength(a, b); }
    forall x: SavedBatch, b ensures |PutBatch(x, b)| == BatchSize(x) + |b| { BatchLength(x, b); }
    forall p: (Bytes, U64), b ensures |PutPair(p, b)| == PairSize(p) + |b| { PairLength(p, b); }
    var x3 := PutServed(ps, []);
    var x2 := PutList(PutBatch, t.batches, x3);
    var x1 := PutList(PutAttempt, t.attempts, x2);
    ListLength(PutPair, PairSize, ps, []);
    ListLength(PutBatch, BatchSize, t.batches, x3);
    ListLength(PutAttempt, AttemptSize, t.attempts, x2);
    ListLength(PutRequest, RequestSize, t.requests, x1);
    HeaderLength(HeaderOf(t), PutList(PutRequest, t.requests, x1));
  }

  /** What is saved is loaded back unchanged exactly when the runtime is persistable and
      its file is not too long. */
  lemma SaveRoundTrip(rt: Runtime, ps: Listing)
    requires Writable(rt) && Enumerates(ps, rt.served)
    ensures Load(Save(rt.tables, ps)) == Some(rt) <==> Persistable(rt) && SavedSize(rt.tables, ps) <= MAX_FILE
  {
    hide Parse, Save, Persistable, Enumerates, SavedSize;
    SaveParses(rt, ps);
    SavedLength(rt.tables, ps);
  }
}
