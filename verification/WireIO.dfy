/** The protocol's write and read routines on a ByteWriter and a ByteReader. */
module WireIO {
  import opened Types
  import opened Octets
  import opened Identity
  import opened Wire
  import opened ByteIO

  // ---- submissions ----

  method WriteMeta(w: ByteWriter, m: Metadata, ghost rest: Bytes)
    requires Sized(m.descriptor) && |m.payload| <= ANY_LENGTH
    modifies w
    ensures w.buf + rest == old(w.buf) + PutMeta(m, rest)
  {
    hide PutU64, PutI64, PutU8, PutString, PutDescriptor, Sized;
    ghost var r10 := PutString(m.payload, rest);
    ghost var r9 := PutU8(m.priority, r10);
    ghost var r8 := PutU8(m.latency, r9);
    ghost var r7 := PutI64(m.deadline, r8);
    ghost var r6 := PutU64(m.memory, r7);
    ghost var r5 := PutU64(m.work, r6);
    ghost var r4 := PutU64(m.output, r5);
    ghost var r3 := PutU64(m.input, r4);
    ghost var r2 := PutDescriptor(m.descriptor, r3);
    ghost var r1 := PutU64(m.sequence, r2);
    w.U64(m.tenant, PutU64(m.session, r1));
    w.U64(m.session, r1);
    w.U64(m.sequence, r2);
    w.Descriptor(m.descriptor, r3);
    w.U64(m.input, r4);
    w.U64(m.output, r5);
    w.U64(m.work, r6);
    w.U64(m.memory, r7);
    w.I64(m.deadline, r8);
    w.U8(m.latency, r9);
    w.U8(m.priority, r10);
    w.String(m.payload, rest);
  }

  method ReadMeta(r: ByteReader) returns (m: Option<Metadata>)
    requires r.Valid()
    modifies r
    ensures r.Took(GetMeta(old(r.Rest())), m)
  {
    hide GetU64, GetI64, GetU8, GetString, GetDescriptor;
    var tenant :- r.U64();
    var session :- r.U64();
    var sequence :- r.U64();
    var descriptor :- r.Descriptor();
    var input :- r.U64();
    var output :- r.U64();
    var work :- r.U64();
    var memory :- r.U64();
    var deadline :- r.I64();
    var latency :- r.U8();
    var priority :- r.U8();
    var payload :- r.String(MAX_STRING);
    m := Some(Metadata(tenant, session, sequence, descriptor, input, output, work, memory, deadline, latency, priority, payload));
  }

  method WriteSubmit(m: Metadata) returns (b: Bytes)
    requires Sized(m.descriptor) && |m.payload| <= ANY_LENGTH
    ensures b == EncodeSubmit(m)
  {
    hide PutMeta, Sized;
    var w := new ByteWriter();
    WriteMeta(w, m, []);
    b := w.buf;
    assert b + [] == b && [] + PutMeta(m, []) == PutMeta(m, []);
  }

  method ReadSubmit(b: Bytes) returns (m: Option<Metadata>)
    ensures m == DecodeSubmit(b)
  {
    hide GetMeta;
    var r := new ByteReader(b);
    var x :- ReadMeta(r);
    m := if r.pos == |r.data| then Some(x) else None;
  }

  // ---- dispatches ----

  method WriteMemberWork(w: ByteWriter, m: MemberWork, ghost rest: Bytes)
    requires WorkSized(m)
    modifies w
    ensures w.buf + rest == old(w.buf) + PutWork(m, rest)
  {
    hide PutU64, PutString;
    ghost var r4 := PutString(m.payload, rest);
    ghost var r3 := PutU64(m.output, r4);
    ghost var r2 := PutU64(m.input, r3);
    ghost var r1 := PutU64(m.work, r2);
    w.U64(m.request, PutU64(m.attempt, r1));
    w.U64(m.attempt, r1);
    w.U64(m.work, r2);
    w.U64(m.input, r3);
    w.U64(m.output, r4);
    w.String(m.payload, rest);
  }

  method ReadMemberWork(r: ByteReader) returns (m: Option<MemberWork>)
    requires r.Valid()
    modifies r
    ensures r.Took(GetWork(old(r.Rest())), m)
  {
    hide GetU64, GetString;
    var request :- r.U64();
    var attempt :- r.U64();
    var work :- r.U64();
    var input :- r.U64();
    var output :- r.U64();
    var payload :- r.String(MAX_STRING);
    m := Some(MemberWork(request, attempt, work, input, output, payload));
  }

  method WriteWorks(w: ByteWriter, ms: seq<MemberWork>, ghost rest: Bytes)
    requires forall m :: m in ms ==> WorkSized(m)
    modifies w
    ensures w.buf + rest == old(w.buf) + PutWorks(ms, rest)
  {
    hide PutU32, PutWork, WorkSized;
    w.U32(|ms| % 0x1_0000_0000, PutList(PutWork, ms, rest));
    for i := 0 to |ms|
      invariant w.buf + PutList(PutWork, ms[i..], rest) == old(w.buf) + PutWorks(ms, rest)
    {
      assert ms[i..][1..] == ms[i + 1..] && ms[i] in ms;
      WriteMemberWork(w, ms[i], PutList(PutWork, ms[i + 1..], rest));
    }
  }

  method ReadWorks(r: ByteReader) returns (ms: Option<seq<MemberWork>>)
    requires r.Valid()
    modifies r
    ensures r.Took(GetWorks(old(r.Rest())), ms)
  {
    hide GetU32, GetWork;
    var n :- r.U32();
    if n > MAX_MEMBERS { return None; }
    var xs: seq<MemberWork> := [];
    ghost var start := r.Rest();
    PrefixedNothing(GetList(GetWork, start, n));
    for i := 0 to n
      invariant r.Valid() && GetList(GetWork, start, n) == Prefixed(xs, GetList(GetWork, r.Rest(), n - i))
    {
      var x :- ReadMemberWork(r);
      PrefixedStep(xs, x, GetList(GetWork, r.Rest(), n - i - 1));
      xs := xs + [x];
    }
    assert xs + [] == xs;
    ms := Some(xs);
  }

  method WriteDispatch(e: Execution) returns (b: Bytes)
    requires ExecutionSized(e)
    ensures b == EncodeDispatch(e)
  {
    hide PutU64, PutDescriptor, PutWorks, WorkSized, Sized;
    var w := new ByteWriter();
    ghost var r4 := PutWorks(e.members, []);
    ghost var r3 := PutDescriptor(e.descriptor, r4);
    ghost var r2 := PutU64(e.worker, r3);
    ghost var r1 := PutU64(e.epoch, r2);
    w.U64(e.batch, PutU64(e.generation, r1));
    w.U64(e.generation, r1);
    w.U64(e.epoch, r2);
    w.U64(e.worker, r3);
    w.Descriptor(e.descriptor, r4);
    WriteWorks(w, e.members, []);
    b := w.buf;
    assert b + [] == b && [] + PutExecution(e, []) == PutExecution(e, []);
  }

  method ReadDispatch(b: Bytes) returns (e: Option<Execution>)
    ensures e == DecodeDispatch(b)
  {
    hide GetU64, GetDescriptor, GetWorks;
    var r := new ByteReader(b);
    var batch :- r.U64();
    var generation :- r.U64();
    var epoch :- r.U64();
    var worker :- r.U64();
    var descriptor :- r.Descriptor();
    var members :- ReadWorks(r);
    e := if r.pos == |r.data| then Some(Execution(batch, generation, epoch, worker, descriptor, members)) else None;
  }

  // ---- completions ----

  method WriteOutcome(w: ByteWriter, m: MemberCompletion, ghost rest: Bytes)
    requires OutcomeSized(m)
    modifies w
    ensures w.buf + rest == old(w.buf) + PutOutcome(m, rest)
  {
    hide PutU64, PutU8, PutU32, PutString;
    ghost var r4 := PutString(m.errorMessage, rest);
    ghost var r3 := PutU32(m.errorCode, r4);
    ghost var r2 := PutString(m.result, r3);
    ghost var r1 := PutU8(m.status, r2);
    w.U64(m.request, PutU64(m.attempt, r1));
    w.U64(m.attempt, r1);
    w.U8(m.status, r2);
    w.String(m.result, r3);
    w.U32(m.errorCode, r4);
    w.String(m.errorMessage, rest);
  }

  method ReadOutcome(r: ByteReader) returns (m: Option<MemberCompletion>)
    requires r.Valid()
    modifies r
    ensures r.Took(GetOutcome(old(r.Rest())), m)
  {
    hide GetU64, GetU8, GetU32, GetString;
    var request :- r.U64();
    var attempt :- r.U64();
    var status :- r.U8();
    var result :- r.String(MAX_STRING);
    var code :- r.U32();
    var message :- r.String(MAX_STRING);
    m := Some(MemberCompletion(request, attempt, status, result, code, message));
  }

  method WriteOutcomes(w: ByteWriter, ms: seq<MemberCompletion>, ghost rest: Bytes)
    requires forall m :: m in ms ==> OutcomeSized(m)
    modifies w
    ensures w.buf + rest == old(w.buf) + PutOutcomes(ms, rest)
  {
    hide PutU32, PutOutcome, OutcomeSized;
    w.U32(|ms| % 0x1_0000_0000, PutList(PutOutcome, ms, rest));
    for i := 0 to |ms|
      invariant w.buf + PutList(PutOutcome, ms[i..], rest) == old(w.buf) + PutOutcomes(ms, rest)
    {
      assert ms[i..][1..] == ms[i + 1..] && ms[i] in ms;
      WriteOutcome(w, ms[i], PutList(PutOutcome, ms[i + 1..], rest));
    }
  }

  method ReadOutcomes(r: ByteReader) returns (ms: Option<seq<MemberCompletion>>)
    requires r.Valid()
    modifies r
    ensures r.Took(GetOutcomes(old(r.Rest())), ms)
  {
    hide GetU32, GetOutcome;
    var n :- r.U32();
    if n > MAX_MEMBERS { return None; }
    var xs: seq<MemberCompletion> := [];
    ghost var start := r.Rest();
    PrefixedNothing(GetList(GetOutcome, start, n));
    for i := 0 to n
      invariant r.Valid() && GetList(GetOutcome, start, n) == Prefixed(xs, GetList(GetOutcome, r.Rest(), n - i))
    {
      var x :- ReadOutcome(r);
      PrefixedStep(xs, x, GetList(GetOutcome, r.Rest(), n - i - 1));
      xs := xs + [x];
    }
    assert xs + [] == xs;
    ms := Some(xs);
  }

  method WriteComplete(c: Completion) returns (b: Bytes)
    requires CompletionSized(c)
    ensures b == EncodeComplete(c)
  {
    hide PutU64, PutOutcomes, OutcomeSized;
    var w := new ByteWriter();
    ghost var r4 := PutOutcomes(c.members, []);
    ghost var r3 := PutU64(c.batch, r4);
    ghost var r2 := PutU64(c.generation, r3);
    ghost var r1 := PutU64(c.epoch, r2);
    w.U64(c.worker, PutU64(c.boot, r1));
    w.U64(c.boot, r1);
    w.U64(c.epoch, r2);
    w.U64(c.generation, r3);
    w.U64(c.batch, r4);
    WriteOutcomes(w, c.members, []);
    b := w.buf;
    assert b + [] == b && [] + PutCompletion(c, []) == PutCompletion(c, []);
  }

  method ReadComplete(b: Bytes) returns (c: Option<Completion>)
    ensures c == DecodeComplete(b)
  {
    hide GetU64, GetOutcomes;
    var r := new ByteReader(b);
    var worker :- r.U64();
    var boot :- r.U64();
    var epoch :- r.U64();
    var generation :- r.U64();
    var batch :- r.U64();
    var members :- ReadOutcomes(r);
    c := if r.pos == |r.data| then Some(Completion(worker, boot, epoch, generation, batch, members)) else None;
  }

  // ---- registrations ----

  method WriteRegister(m: Register) returns (b: Bytes)
    requires RegisterFits(m)
    ensures b == EncodeRegister(m)
  {
    hide PutU64, PutU8, PutU32, PutDevice;
    var w := new ByteWriter();
    var c := m.cap;
    var flag := if c.cancellation then 1 else 0;
    ghost var r8 := PutU8(flag, []);
    ghost var r7 := PutU64(c.maxMemory, r8);
    ghost var r6 := PutU64(c.maxWork, r7);
    ghost var r5 := PutU64(c.maxTokens, r6);
    ghost var r4 := PutU32(c.maxBatch, r5);
    ghost var r3 := PutDevice(c.device, r4);
    ghost var r2 := PutU8(c.backend, r3);
    ghost var r1 := PutU64(c.worker, r2);
    w.U64(m.worker, PutU64(m.boot, r1));
    w.U64(m.boot, r1);
    w.U64(c.worker, r2);
    w.U8(c.backend, r3);
    w.Device(c.device, r4);
    w.U32(c.maxBatch, r5);
    w.U64(c.maxTokens, r6);
    w.U64(c.maxWork, r7);
    w.U64(c.maxMemory, r8);
    w.U8(flag, []);
    b := w.buf;
    assert b + [] == b && [] + PutRegister(m, []) == PutRegister(m, []);
  }

  method ReadRegister(b: Bytes) returns (m: Option<Register>)
    ensures m == DecodeRegister(b)
  {
    hide GetU64, GetU8, GetU32, GetDevice;
    var r := new ByteReader(b);
    var worker :- r.U64();
    var boot :- r.U64();
    var capWorker :- r.U64();
    var backend :- r.U8();
    var device :- r.Device();
    var maxBatch :- r.U32();
    var maxTokens :- r.U64();
    var maxWork :- r.U64();
    var maxMemory :- r.U64();
    var flag :- r.U8();
    var cap := Capability(capWorker, backend, device, maxBatch, maxTokens, maxWork, maxMemory, flag != 0);
    m := if r.pos == |r.data| then Some(Register(worker, boot, cap)) else None;
  }
}
