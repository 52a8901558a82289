/** Which descriptors may share a batch, and that batches respect it. */
module Compatibility {
  import opened Types
  import opened Policy
  import opened Scheduler
  import opened Network
  import opened WideRuns
  import Identity
  import ByteIO
  import Sha256
  import Sha256Spec

  datatype Decision =
    | Compatible | OtherModel | OtherRevision | OtherAdapter | OtherPhase | OtherDtype | OtherBackend
    | OtherMode | OtherDevice | OtherShape | OtherSampling | OtherExtensions

  /** evaluate_compatibility: the first difference found. */
  function Evaluate(a: Descriptor, b: Descriptor): Decision {
    if a.model != b.model then OtherModel
    else if a.revision != b.revision then OtherRevision
    else if a.adapter != b.adapter then OtherAdapter
    else if a.phase != b.phase then OtherPhase
    else if a.dtype != b.dtype then OtherDtype
    else if a.backend != b.backend then OtherBackend
    else if a.mode != b.mode then OtherMode
    else if a.device != b.device then OtherDevice
    else if a.shape != b.shape then OtherShape
    else if a.sampling != b.sampling then OtherSampling
    else if a.extensions != b.extensions then OtherExtensions
    else Compatible
  }

  /** The evaluation sees everything but the tokenizer; the key sees that as well. */
  lemma CompatibleExact(a: Descriptor, b: Descriptor)
    requires Identity.Sized(a) && Identity.Sized(b)
    ensures Evaluate(a, b).Compatible? <==> a.(tokenizer := b.tokenizer) == b
    ensures Identity.Preimage(a) == Identity.Preimage(b) <==> Evaluate(a, b).Compatible? && a.tokenizer == b.tokenizer
  {
    hide Identity.Sized, Identity.Preimage;
    if Identity.Preimage(a) == Identity.Preimage(b) { Identity.PreimageInjective(a, b); }
  }

  /** No two of these requests collide: equal digests come from equal bytes. */
  ghost predicate CollisionFree(rs: Requests) {
    forall x, y :: x in rs && y in rs && Identity.KeyOf(rs[x].meta.descriptor) == Identity.KeyOf(rs[y].meta.descriptor)
      ==> Identity.Preimage(rs[x].meta.descriptor) == Identity.Preimage(rs[y].meta.descriptor)
  }

  predicate AllSized(rs: Requests) { forall r :: r in rs ==> Identity.Sized(rs[r].meta.descriptor) }

  /** Splits and any retries included, the members of a batch have one descriptor. In
      particular they are pairwise compatible, and none mixes prefill and decode. */
  lemma MembersAreCompatible(p: BatchPolicy, run: seq<System>, steps: seq<WideStep>, i: nat, b: Id, x: Id, y: Id)
    requires IsWideRun(p, run, steps) && i < |run|
    requires b in run[i].fabric.batches && x in run[i].fabric.batches[b].members && y in run[i].fabric.batches[b].members
    requires CollisionFree(run[i].fabric.requests) && AllSized(run[i].fabric.requests)
    ensures SameDescriptor(run[i].fabric.requests, x, y)
  {
    hide IsWideRun, Identity.KeyOf, Identity.Preimage, Identity.Sized;
    var s := run[i].fabric;
    TotalsAndKeysHold(p, run, steps, i, b);
    assert x in s.requests && y in s.requests;
    Identity.PreimageInjective(s.requests[x].meta.descriptor, s.requests[y].meta.descriptor);
  }

  predicate SameDescriptor(rs: Requests, x: Id, y: Id) {
    && x in rs && y in rs && rs[x].meta.descriptor == rs[y].meta.descriptor
    && Evaluate(rs[x].meta.descriptor, rs[y].meta.descriptor).Compatible?
    && rs[x].meta.descriptor.phase == rs[y].meta.descriptor.phase
  }

  /** Equal digests come from equal bytes. */
  ghost predicate Distinguished(a: Descriptor, b: Descriptor) {
    && Identity.Sized(a) && Identity.Sized(b)
    && (Identity.KeyOf(a) == Identity.KeyOf(b) ==> Identity.Preimage(a) == Identity.Preimage(b))
  }

  /** The descriptor of a batch, which is what a dispatch carries, is that of each member,
      whatever has been cancelled, split, merged or retried before. */
  lemma DescriptorIsTheMembers(p: BatchPolicy, run: seq<System>, steps: seq<WideStep>, i: nat, b: Id, m: Id)
    requires IsWideRun(p, run, steps) && i < |run|
    requires b in run[i].fabric.batches && m in run[i].fabric.batches[b].members && m in run[i].fabric.requests
    requires Distinguished(run[i].fabric.batches[b].descriptor, run[i].fabric.requests[m].meta.descriptor)
    ensures run[i].fabric.batches[b].descriptor == run[i].fabric.requests[m].meta.descriptor
  {
    hide IsWideRun, Identity.KeyOf, Identity.Preimage, Identity.Sized;
    var s := run[i].fabric;
    TotalsAndKeysHold(p, run, steps, i, b);
    Identity.PreimageInjective(s.batches[b].descriptor, s.requests[m].meta.descriptor);
  }

  /** CompatibilityKey::build. */
  method BuildKey(d: Descriptor) returns (key: Key)
    requires Identity.Sized(d) && |Identity.Preimage(d)| < 0x2000_0000_0000_0000
    ensures key == Identity.KeyOf(d)
  {
    hide Identity.Sized, Identity.PutDescriptor, Sha256Spec.Digest;
    var w := new ByteIO.ByteWriter();
    w.Descriptor(d, []);
    assert w.buf + [] == w.buf && [] + Identity.Preimage(d) == Identity.Preimage(d);
    key := Sha256.Stream.DigestOf(w.buf);
  }
}
