/** The message bodies of the coordinator protocol. A decoder runs the reader over
    the whole body and refuses anything left over. */
module Wire {
  import opened Types
  import opened Octets
  import opened Identity

  const MAX_MEMBERS: nat := 0x10_0000

  predicate IsU64(x: nat) { x < 0x1_0000_0000_0000_0000 }

  // ---- request metadata ----

  datatype Estimates = Estimates(input: U64, output: U64, work: U64, memory: U64, deadline: I64, latency: U8, priority: U8)

  function EstimatesOf(m: Metadata): Estimates {
    Estimates(m.input, m.output, m.work, m.memory, m.deadline, m.latency, m.priority)
  }

  function PutEstimates(e: Estimates, rest: Bytes): Bytes {
    PutU64(e.input, PutU64(e.output, PutU64(e.work, PutU64(e.memory,
      PutI64(e.deadline, PutU8(e.latency, PutU8(e.priority, rest)))))))
  }

  function GetEstimates(b: Bytes): Option<(Estimates, Bytes)> {
    var (input, b1) :- GetU64(b);
    var (output, b2) :- GetU64(b1);
    var (work, b3) :- GetU64(b2);
    var (memory, b4) :- GetU64(b3);
    var (deadline, b5) :- GetI64(b4);
    var (latency, b6) :- GetU8(b5);
    var (priority, b7) :- GetU8(b6);
    Some((Estimates(input, output, work, memory, deadline, latency, priority), b7))
  }

  function PutMeta(m: Metadata, rest: Bytes): Bytes {
    PutU64(m.tenant, PutU64(m.session, PutU64(m.sequence, PutDescriptor(m.descriptor,
      PutEstimates(EstimatesOf(m), PutString(m.payload, rest))))))
  }

  function GetMeta(b: Bytes): Option<(Metadata, Bytes)> {
    var (tenant, b1) :- GetU64(b);
    var (session, b2) :- GetU64(b1);
    var (sequence, b3) :- GetU64(b2);
    var (descriptor, b4) :- GetDescriptor(b3);
    var (e, b5) :- GetEstimates(b4);
    var (payload, b6) :- GetString(b5, MAX_STRING);
    Some((Metadata(tenant, session, sequence, descriptor, e.input, e.output, e.work, e.memory,
                   e.deadline, e.latency, e.priority, payload), b6))
  }

  predicate MetaFits(m: Metadata) { Readable(m.descriptor) && |m.payload| <= MAX_STRING }

  lemma EstimatesRoundTrip(e: Estimates, rest: Bytes)
    ensures GetEstimates(PutEstimates(e, rest)) == Some((e, rest))
  {
    hide PutU64, GetU64, PutI64, GetI64, PutU8, GetU8;
    var r6 := PutU8(e.priority, rest);
    var r5 := PutU8(e.latency, r6);
    var r4 := PutI64(e.deadline, r5);
    var r3 := PutU64(e.memory, r4);
    var r2 := PutU64(e.work, r3);
    var r1 := PutU64(e.output, r2);
    U64RoundTrip(e.input, r1);
    U64RoundTrip(e.output, r2);
    U64RoundTrip(e.work, r3);
    U64RoundTrip(e.memory, r4);
    I64RoundTrip(e.deadline, r5);
    U8RoundTrip(e.latency, r6);
    U8RoundTrip(e.priority, rest);
  }

  lemma EstimatesCanonical(b: Bytes)
    requires GetEstimates(b).Some?
    ensures b == PutEstimates(GetEstimates(b).value.0, GetEstimates(b).value.1)
  {
    hide PutU64, GetU64, PutI64, GetI64, PutU8, GetU8;
    U64Canonical(b);
    var b1 := GetU64(b).value.1;
    U64Canonical(b1);
    var b2 := GetU64(b1).value.1;
    U64Canonical(b2);
    var b3 := GetU64(b2).value.1;
    U64Canonical(b3);
    var b4 := GetU64(b3).value.1;
    I64Canonical(b4);
    var b5 := GetI64(b4).value.1;
    U8Canonical(b5);
    U8Canonical(GetU8(b5).value.1);
  }

  lemma EstimatesAppend(e: Estimates, a: Bytes, b: Bytes)
    ensures PutEstimates(e, a + b) == PutEstimates(e, a) + b
  {
    hide PutInt, PutU8;
    var a6 := PutU8(e.priority, a);
    var a5 := PutU8(e.latency, a6);
    var a4 := PutI64(e.deadline, a5);
    var a3 := PutU64(e.memory, a4);
    var a2 := PutU64(e.work, a3);
    U8Append(e.priority, a, b);
    U8Append(e.latency, a6, b);
    IntAppend(Unsigned(e.deadline), 8, a5, b);
    IntAppend(e.memory, 8, a4, b);
    IntAppend(e.work, 8, a3, b);
    IntAppend(e.output, 8, a2, b);
    IntAppend(e.input, 8, PutU64(e.output, a2), b);
  }

  lemma MetaRoundTrip(m: Metadata, rest: Bytes)
    requires MetaFits(m)
    ensures GetMeta(PutMeta(m, rest)) == Some((m, rest))
  {
    hide PutU64, GetU64, PutDescriptor, GetDescriptor, PutEstimates, GetEstimates, PutString, GetString, Readable;
    var r5 := PutString(m.payload, rest);
    var r4 := PutEstimates(EstimatesOf(m), r5);
    var r3 := PutDescriptor(m.descriptor, r4);
    var r2 := PutU64(m.sequence, r3);
    U64RoundTrip(m.tenant, PutU64(m.session, r2));
    U64RoundTrip(m.session, r2);
    U64RoundTrip(m.sequence, r3);
    DescriptorRoundTrip(m.descriptor, r4);
    EstimatesRoundTrip(EstimatesOf(m), r5);
    StringRoundTrip(m.payload, rest, MAX_STRING);
  }

  lemma MetaCanonical(b: Bytes)
    requires GetMeta(b).Some?
    ensures MetaFits(GetMeta(b).value.0) && b == PutMeta(GetMeta(b).value.0, GetMeta(b).value.1)
  {
    hide PutU64, GetU64, PutDescriptor, GetDescriptor, PutEstimates, GetEstimates, PutString, GetString, Readable;
    U64Canonical(b);
    var b1 := GetU64(b).value.1;
    U64Canonical(b1);
    var b2 := GetU64(b1).value.1;
    U64Canonical(b2);
    var b3 := GetU64(b2).value.1;
    DescriptorCanonical(b3);
    var b4 := GetDescriptor(b3).value.1;
    EstimatesCanonical(b4);
    StringCanonical(GetEstimates(b4).value.1, MAX_STRING);
  }

  lemma MetaAppend(m: Metadata, a: Bytes, b: Bytes)
    ensures PutMeta(m, a + b) == PutMeta(m, a) + b
  {
    hide PutInt, PutDescriptor, PutEstimates, PutString;
    var a5 := PutString(m.payload, a);
    var a4 := PutEstimates(EstimatesOf(m), a5);
    var a3 := PutDescriptor(m.descriptor, a4);
    var a2 := PutU64(m.sequence, a3);
    StringAppend(m.payload, a, b);
    EstimatesAppend(EstimatesOf(m), a5, b);
    DescriptorAppend(m.descriptor, a4, b);
    IntAppend(m.sequence, 8, a3, b);
    IntAppend(m.session, 8, a2, b);
    IntAppend(m.tenant, 8, PutU64(m.session, a2), b);
  }

  // ---- dispatches ----

  function PutWork(m: MemberWork, rest: Bytes): Bytes {
    PutU64(m.request, PutU64(m.attempt, PutU64(m.work, PutU64(m.input, PutU64(m.output, PutString(m.payload, rest))))))
  }

  function GetWork(b: Bytes): Option<(MemberWork, Bytes)> {
    var (request, b1) :- GetU64(b);
    var (attempt, b2) :- GetU64(b1);
    var (work, b3) :- GetU64(b2);
    var (input, b4) :- GetU64(b3);
    var (output, b5) :- GetU64(b4);
    var (payload, b6) :- GetString(b5, MAX_STRING);
    Some((MemberWork(request, attempt, work, input, output, payload), b6))
  }

  predicate WorkFits(m: MemberWork) { IsU64(m.request) && IsU64(m.attempt) && |m.payload| <= MAX_STRING }

  /** What the C++ types allow, which is all that the writer needs. */
  predicate WorkSized(m: MemberWork) { IsU64(m.request) && IsU64(m.attempt) && |m.payload| <= ANY_LENGTH }

  lemma WorkRoundTrip(m: MemberWork, rest: Bytes)
    requires WorkFits(m)
    ensures GetWork(PutWork(m, rest)) == Some((m, rest))
  {
    hide PutU64, GetU64, PutString, GetString;
    var r5 := PutString(m.payload, rest);
    var r4 := PutU64(m.output, r5);
    var r3 := PutU64(m.input, r4);
    var r2 := PutU64(m.work, r3);
    U64RoundTrip(m.request, PutU64(m.attempt, r2));
    U64RoundTrip(m.attempt, r2);
    U64RoundTrip(m.work, r3);
    U64RoundTrip(m.input, r4);
    U64RoundTrip(m.output, r5);
    StringRoundTrip(m.payload, rest, MAX_STRING);
  }

  lemma WorkCanonical(b: Bytes)
    requires GetWork(b).Some?
    ensures WorkFits(GetWork(b).value.0) && b == PutWork(GetWork(b).value.0, GetWork(b).value.1)
  {
    hide PutU64, GetU64, PutString, GetString;
    U64Canonical(b);
    var b1 := GetU64(b).value.1;
    U64Canonical(b1);
    var b2 := GetU64(b1).value.1;
    U64Canonical(b2);
    var b3 := GetU64(b2).value.1;
    U64Canonical(b3);
    var b4 := GetU64(b3).value.1;
    U64Canonical(b4);
    StringCanonical(GetU64(b4).value.1, MAX_STRING);
  }

  lemma WorkAppend(m: MemberWork, a: Bytes, b: Bytes)
    ensures PutWork(m, a + b) == PutWork(m, a) + b
  {
    hide PutInt, PutString;
    var a5 := PutString(m.payload, a);
    var a4 := PutU64(m.output, a5);
    var a3 := PutU64(m.input, a4);
    var a2 := PutU64(m.work, a3);
    StringAppend(m.payload, a, b);
    IntAppend(m.output, 8, a5, b);
    IntAppend(m.input, 8, a4, b);
    IntAppend(m.work, 8, a3, b);
    IntAppend(m.attempt, 8, a2, b);
    IntAppend(m.request, 8, PutU64(m.attempt, a2), b);
  }

  /** The count is written in 32 bits. */
  function PutWorks(ms: seq<MemberWork>, rest: Bytes): Bytes {
    PutU32(|ms| % 0x1_0000_0000, PutList(PutWork, ms, rest))
  }

  function GetWorks(b: Bytes): Option<(seq<MemberWork>, Bytes)> {
    var (n, b1) :- GetU32(b);
    if n > MAX_MEMBERS then None else GetList(GetWork, b1, n)
  }

  predicate WorksFit(ms: seq<MemberWork>) { |ms| <= MAX_MEMBERS && forall m :: m in ms ==> WorkFits(m) }

  lemma WorksRoundTrip(ms: seq<MemberWork>, rest: Bytes)
    requires WorksFit(ms)
    ensures GetWorks(PutWorks(ms, rest)) == Some((ms, rest))
  {
    hide PutU32, GetU32, PutWork, GetWork, WorkFits, PutList, GetList;
    forall m, r | WorkFits(m) ensures GetWork(PutWork(m, r)) == Some((m, r)) { WorkRoundTrip(m, r); }
    U32RoundTrip(|ms|, PutList(PutWork, ms, rest));
    ListRoundTrip(PutWork, GetWork, WorkFits, ms, rest);
  }

  lemma WorksCanonical(b: Bytes)
    requires GetWorks(b).Some?
    ensures WorksFit(GetWorks(b).value.0) && b == PutWorks(GetWorks(b).value.0, GetWorks(b).value.1)
  {
    hide PutU32, GetU32, PutWork, GetWork, WorkFits, PutList, GetList;
    forall b | GetWork(b).Some?
      ensures WorkFits(GetWork(b).value.0) && b == PutWork(GetWork(b).value.0, GetWork(b).value.1)
    { WorkCanonical(b); }
    U32Canonical(b);
    var (n, b1) := GetU32(b).value;
    ListCanonical(PutWork, GetWork, WorkFits, b1, n);
  }

  function PutExecution(e: Execution, rest: Bytes): Bytes {
    PutU64(e.batch, PutU64(e.generation, PutU64(e.epoch, PutU64(e.worker,
      PutDescriptor(e.descriptor, PutWorks(e.members, rest))))))
  }

  function GetExecution(b: Bytes): Option<(Execution, Bytes)> {
    var (batch, b1) :- GetU64(b);
    var (generation, b2) :- GetU64(b1);
    var (epoch, b3) :- GetU64(b2);
    var (worker, b4) :- GetU64(b3);
    var (descriptor, b5) :- GetDescriptor(b4);
    var (members, b6) :- GetWorks(b5);
    Some((Execution(batch, generation, epoch, worker, descriptor, members), b6))
  }

  predicate ExecutionFits(e: Execution) {
    && IsU64(e.batch) && IsU64(e.generation) && IsU64(e.epoch) && IsU64(e.worker)
    && Readable(e.descriptor) && WorksFit(e.members)
  }

  predicate ExecutionSized(e: Execution) {
    && IsU64(e.batch) && IsU64(e.generation) && IsU64(e.epoch) && IsU64(e.worker)
    && Sized(e.descriptor) && forall m :: m in e.members ==> WorkSized(m)
  }

  lemma ExecutionRoundTrip(e: Execution, rest: Bytes)
    requires ExecutionFits(e)
    ensures GetExecution(PutExecution(e, rest)) == Some((e, rest))
  {
    hide PutU64, GetU64, PutDescriptor, GetDescriptor, PutWorks, GetWorks, Readable, WorksFit;
    var r5 := PutWorks(e.members, rest);
    var r4 := PutDescriptor(e.descriptor, r5);
    var r3 := PutU64(e.worker, r4);
    var r2 := PutU64(e.epoch, r3);
    U64RoundTrip(e.batch, PutU64(e.generation, r2));
    U64RoundTrip(e.generation, r2);
    U64RoundTrip(e.epoch, r3);
    U64RoundTrip(e.worker, r4);
    DescriptorRoundTrip(e.descriptor, r5);
    WorksRoundTrip(e.members, rest);
  }

  lemma ExecutionCanonical(b: Bytes)
    requires GetExecution(b).Some?
    ensures ExecutionFits(GetExecution(b).value.0) && b == PutExecution(GetExecution(b).value.0, GetExecution(b).value.1)
  {
    hide PutU64, GetU64, PutDescriptor, GetDescriptor, PutWorks, GetWorks, Readable, WorksFit;
    U64Canonical(b);
    var b1 := GetU64(b).value.1;
    U64Canonical(b1);
    var b2 := GetU64(b1).value.1;
    U64Canonical(b2);
    var b3 := GetU64(b2).value.1;
    U64Canonical(b3);
    var b4 := GetU64(b3).value.1;
    DescriptorCanonical(b4);
    WorksCanonical(GetDescriptor(b4).value.1);
  }

  lemma ExecutionAppend(e: Execution, a: Bytes, b: Bytes)
    ensures PutExecution(e, a + b) == PutExecution(e, a) + b
  {
    hide PutInt, PutDescriptor, PutList, PutWork;
    forall m: MemberWork, a, b ensures PutWork(m, a + b) == PutWork(m, a) + b { WorkAppend(m, a, b); }
    ListAppend(PutWork, e.members, a, b);
    var a6 := PutList(PutWork, e.members, a);
    var a5 := PutWorks(e.members, a);
    var a4 := PutDescriptor(e.descriptor, a5);
    var a3 := PutU64(e.worker, a4);
    var a2 := PutU64(e.epoch, a3);
    IntAppend(|e.members| % 0x1_0000_0000, 4, a6, b);
    DescriptorAppend(e.descriptor, a5, b);
    IntAppend(e.worker, 8, a4, b);
    IntAppend(e.epoch, 8, a3, b);
    IntAppend(e.generation, 8, a2, b);
    IntAppend(e.batch, 8, PutU64(e.generation, a2), b);
  }

  // ---- completions ----

  function PutOutcome(m: MemberCompletion, rest: Bytes): Bytes {
    PutU64(m.request, PutU64(m.attempt, PutU8(m.status, PutString(m.result,
      PutU32(m.errorCode, PutString(m.errorMessage, rest))))))
  }

  function GetOutcome(b: Bytes): Option<(MemberCompletion, Bytes)> {
    var (request, b1) :- GetU64(b);
    var (attempt, b2) :- GetU64(b1);
    var (status, b3) :- GetU8(b2);
    var (result, b4) :- GetString(b3, MAX_STRING);
    var (code, b5) :- GetU32(b4);
    var (message, b6) :- GetString(b5, MAX_STRING);
    Some((MemberCompletion(request, attempt, status, result, code, message), b6))
  }

  predicate OutcomeFits(m: MemberCompletion) {
    IsU64(m.request) && IsU64(m.attempt) && |m.result| <= MAX_STRING && |m.errorMessage| <= MAX_STRING
  }

  predicate OutcomeSized(m: MemberCompletion) {
    IsU64(m.request) && IsU64(m.attempt) && |m.result| <= ANY_LENGTH && |m.errorMessage| <= ANY_LENGTH
  }

  lemma OutcomeRoundTrip(m: MemberCompletion, rest: Bytes)
    requires OutcomeFits(m)
    ensures GetOutcome(PutOutcome(m, rest)) == Some((m, rest))
  {
    hide PutU64, GetU64, PutU8, GetU8, PutU32, GetU32, PutString, GetString;
    var r5 := PutString(m.errorMessage, rest);
    var r4 := PutU32(m.errorCode, r5);
    var r3 := PutString(m.result, r4);
    var r2 := PutU8(m.status, r3);
    U64RoundTrip(m.request, PutU64(m.attempt, r2));
    U64RoundTrip(m.attempt, r2);
    U8RoundTrip(m.status, r3);
    StringRoundTrip(m.result, r4, MAX_STRING);
    U32RoundTrip(m.errorCode, r5);
    StringRoundTrip(m.errorMessage, rest, MAX_STRING);
  }

  lemma OutcomeCanonical(b: Bytes)
    requires GetOutcome(b).Some?
    ensures OutcomeFits(GetOutcome(b).value.0) && b == PutOutcome(GetOutcome(b).value.0, GetOutcome(b).value.1)
  {
    hide PutU64, GetU64, PutU8, GetU8, PutU32, GetU32, PutString, GetString;
    U64Canonical(b);
    var b1 := GetU64(b).value.1;
    U64Canonical(b1);
    var b2 := GetU64(b1).value.1;
    U8Canonical(b2);
    var b3 := GetU8(b2).value.1;
    StringCanonical(b3, MAX_STRING);
    var b4 := GetString(b3, MAX_STRING).value.1;
    U32Canonical(b4);
    StringCanonical(GetU32(b4).value.1, MAX_STRING);
  }

  lemma OutcomeAppend(m: MemberCompletion, a: Bytes, b: Bytes)
    ensures PutOutcome(m, a + b) == PutOutcome(m, a) + b
  {
    hide PutInt, PutU8, PutString;
    var a5 := PutString(m.errorMessage, a);
    var a4 := PutU32(m.errorCode, a5);
    var a3 := PutString(m.result, a4);
    var a2 := PutU8(m.status, a3);
    StringAppend(m.errorMessage, a, b);
    IntAppend(m.errorCode, 4, a5, b);
    StringAppend(m.result, a4, b);
    U8Append(m.status, a3, b);
    IntAppend(m.attempt, 8, a2, b);
    IntAppend(m.request, 8, PutU64(m.attempt, a2), b);
  }

  function PutOutcomes(ms: seq<MemberCompletion>, rest: Bytes): Bytes {
    PutU32(|ms| % 0x1_0000_0000, PutList(PutOutcome, ms, rest))
  }

  function GetOutcomes(b: Bytes): Option<(seq<MemberCompletion>, Bytes)> {
    var (n, b1) :- GetU32(b);
    if n > MAX_MEMBERS then None else GetList(GetOutcome, b1, n)
  }

  predicate OutcomesFit(ms: seq<MemberCompletion>) { |ms| <= MAX_MEMBERS && forall m :: m in ms ==> OutcomeFits(m) }

  lemma OutcomesRoundTrip(ms: seq<MemberCompletion>, rest: Bytes)
    requires OutcomesFit(ms)
    ensures GetOutcomes(PutOutcomes(ms, rest)) == Some((ms, rest))
  {
    hide PutU32, GetU32, PutOutcome, GetOutcome, OutcomeFits, PutList, GetList;
    forall m, r | OutcomeFits(m) ensures GetOutcome(PutOutcome(m, r)) == Some((m, r)) { OutcomeRoundTrip(m, r); }
    U32RoundTrip(|ms|, PutList(PutOutcome, ms, rest));
    ListRoundTrip(PutOutcome, GetOutcome, OutcomeFits, ms, rest);
  }

  lemma OutcomesCanonical(b: Bytes)
    requires GetOutcomes(b).Some?
    ensures OutcomesFit(GetOutcomes(b).value.0) && b == PutOutcomes(GetOutcomes(b).value.0, GetOutcomes(b).value.1)
  {
    hide PutU32, GetU32, PutOutcome, GetOutcome, OutcomeFits, PutList, GetList;
    forall b | GetOutcome(b).Some?
      ensures OutcomeFits(GetOutcome(b).value.0) && b == PutOutcome(GetOutcome(b).value.0, GetOutcome(b).value.1)
    { OutcomeCanonical(b); }
    U32Canonical(b);
    var (n, b1) := GetU32(b).value;
    ListCanonical(PutOutcome, GetOutcome, OutcomeFits, b1, n);
  }

  function PutCompletion(c: Completion, rest: Bytes): Bytes {
    PutU64(c.worker, PutU64(c.boot, PutU64(c.epoch, PutU64(c.generation, PutU64(c.batch, PutOutcomes(c.members, rest))))))
  }

  function GetCompletion(b: Bytes): Option<(Completion, Bytes)> {
    var (worker, b1) :- GetU64(b);
    var (boot, b2) :- GetU64(b1);
    var (epoch, b3) :- GetU64(b2);
    var (generation, b4) :- GetU64(b3);
    var (batch, b5) :- GetU64(b4);
    var (members, b6) :- GetOutcomes(b5);
    Some((Completion(worker, boot, epoch, generation, batch, members), b6))
  }

  predicate CompletionFits(c: Completion) {
    && IsU64(c.worker) && IsU64(c.boot) && IsU64(c.epoch) && IsU64(c.generation) && IsU64(c.batch)
    && OutcomesFit(c.members)
  }

  predicate CompletionSized(c: Completion) {
    && IsU64(c.worker) && IsU64(c.boot) && IsU64(c.epoch) && IsU64(c.generation) && IsU64(c.batch)
    && forall m :: m in c.members ==> OutcomeSized(m)
  }

  lemma CompletionRoundTrip(c: Completion, rest: Bytes)
    requires CompletionFits(c)
    ensures GetCompletion(PutCompletion(c, rest)) == Some((c, rest))
  {
    hide PutU64, GetU64, PutOutcomes, GetOutcomes, OutcomesFit;
    var r5 := PutOutcomes(c.members, rest);
    var r4 := PutU64(c.batch, r5);
    var r3 := PutU64(c.generation, r4);
    var r2 := PutU64(c.epoch, r3);
    U64RoundTrip(c.worker, PutU64(c.boot, r2));
    U64RoundTrip(c.boot, r2);
    U64RoundTrip(c.epoch, r3);
    U64RoundTrip(c.generation, r4);
    U64RoundTrip(c.batch, r5);
    OutcomesRoundTrip(c.members, rest);
  }

  lemma CompletionCanonical(b: Bytes)
    requires GetCompletion(b).Some?
    ensures CompletionFits(GetCompletion(b).value.0)
    ensures b == PutCompletion(GetCompletion(b).value.0, GetCompletion(b).value.1)
  {
    hide PutU64, GetU64, PutOutcomes, GetOutcomes, OutcomesFit;
    U64Canonical(b);
    var b1 := GetU64(b).value.1;
    U64Canonical(b1);
    var b2 := GetU64(b1).value.1;
    U64Canonical(b2);
    var b3 := GetU64(b2).value.1;
    U64Canonical(b3);
    var b4 := GetU64(b3).value.1;
    U64Canonical(b4);
    OutcomesCanonical(GetU64(b4).value.1);
  }

  lemma CompletionAppend(c: Completion, a: Bytes, b: Bytes)
    ensures PutCompletion(c, a + b) == PutCompletion(c, a) + b
  {
    hide PutInt, PutList, PutOutcome;
    forall m: MemberCompletion, a, b ensures PutOutcome(m, a + b) == PutOutcome(m, a) + b { OutcomeAppend(m, a, b); }
    ListAppend(PutOutcome, c.members, a, b);
    var a6 := PutList(PutOutcome, c.members, a);
    var a5 := PutOutcomes(c.members, a);
    var a4 := PutU64(c.batch, a5);
    var a3 := PutU64(c.generation, a4);
    var a2 := PutU64(c.epoch, a3);
    IntAppend(|c.members| % 0x1_0000_0000, 4, a6, b);
    IntAppend(c.batch, 8, a5, b);
    IntAppend(c.generation, 8, a4, b);
    IntAppend(c.epoch, 8, a3, b);
    IntAppend(c.boot, 8, a2, b);
    IntAppend(c.worker, 8, PutU64(c.boot, a2), b);
  }

  // ---- registrations ----

  datatype Register = Register(worker: Id, boot: Id, cap: Capability)

  /** All but the last byte, which is the cancellation flag. */
  function PutRegisterWith(m: Register, flag: U8, rest: Bytes): Bytes {
    PutU64(m.worker, PutU64(m.boot, PutU64(m.cap.worker, PutU8(m.cap.backend, PutDevice(m.cap.device,
      PutU32(m.cap.maxBatch, PutU64(m.cap.maxTokens, PutU64(m.cap.maxWork, PutU64(m.cap.maxMemory, PutU8(flag, rest))))))))))
  }

  function PutRegister(m: Register, rest: Bytes): Bytes {
    PutRegisterWith(m, if m.cap.cancellation then 1 else 0, rest)
  }

  function GetRegister(b: Bytes): Option<(Register, Bytes)> {
    var (worker, b1) :- GetU64(b);
    var (boot, b2) :- GetU64(b1);
    var (capWorker, b3) :- GetU64(b2);
    var (backend, b4) :- GetU8(b3);
    var (device, b5) :- GetDevice(b4);
    var (maxBatch, b6) :- GetU32(b5);
    var (maxTokens, b7) :- GetU64(b6);
    var (maxWork, b8) :- GetU64(b7);
    var (maxMemory, b9) :- GetU64(b8);
    var (flag, b10) :- GetU8(b9);
    Some((Register(worker, boot, Capability(capWorker, backend, device, maxBatch, maxTokens, maxWork, maxMemory, flag != 0)), b10))
  }

  predicate RegisterFits(m: Register) { IsU64(m.worker) && IsU64(m.boot) && IsU64(m.cap.worker) }

  lemma RegisterRoundTrip(m: Register, flag: U8, rest: Bytes)
    requires RegisterFits(m) && m.cap.cancellation == (flag != 0)
    ensures GetRegister(PutRegisterWith(m, flag, rest)) == Some((m, rest))
  {
    hide PutU64, GetU64, PutU8, GetU8, PutU32, GetU32, PutDevice, GetDevice;
    var c := m.cap;
    var r9 := PutU8(flag, rest);
    var r8 := PutU64(c.maxMemory, r9);
    var r7 := PutU64(c.maxWork, r8);
    var r6 := PutU64(c.maxTokens, r7);
    var r5 := PutU32(c.maxBatch, r6);
    var r4 := PutDevice(c.device, r5);
    var r3 := PutU8(c.backend, r4);
    var r2 := PutU64(c.worker, r3);
    U64RoundTrip(m.worker, PutU64(m.boot, r2));
    U64RoundTrip(m.boot, r2);
    U64RoundTrip(c.worker, r3);
    U8RoundTrip(c.backend, r4);
    DeviceRoundTrip(c.device, r5);
    U32RoundTrip(c.maxBatch, r6);
    U64RoundTrip(c.maxTokens, r7);
    U64RoundTrip(c.maxWork, r8);
    U64RoundTrip(c.maxMemory, r9);
    U8RoundTrip(flag, rest);
  }

  lemma RegisterCanonical(b: Bytes) returns (flag: U8)
    requires GetRegister(b).Some?
    ensures RegisterFits(GetRegister(b).value.0)
    ensures GetRegister(b).value.0.cap.cancellation == (flag != 0)
    ensures b == PutRegisterWith(GetRegister(b).value.0, flag, GetRegister(b).value.1)
  {
    hide PutU64, GetU64, PutU8, GetU8, PutU32, GetU32, PutDevice, GetDevice;
    U64Canonical(b);
    var b1 := GetU64(b).value.1;
    U64Canonical(b1);
    var b2 := GetU64(b1).value.1;
    U64Canonical(b2);
    var b3 := GetU64(b2).value.1;
    U8Canonical(b3);
    var b4 := GetU8(b3).value.1;
    DeviceCanonical(b4);
    var b5 := GetDevice(b4).value.1;
    U32Canonical(b5);
    var b6 := GetU32(b5).value.1;
    U64Canonical(b6);
    var b7 := GetU64(b6).value.1;
    U64Canonical(b7);
    var b8 := GetU64(b7).value.1;
    U64Canonical(b8);
    var b9 := GetU64(b8).value.1;
    U8Canonical(b9);
    flag := GetU8(b9).value.0;
  }

  lemma RegisterAppend(m: Register, flag: U8, a: Bytes, b: Bytes)
    ensures PutRegisterWith(m, flag, a + b) == PutRegisterWith(m, flag, a) + b
  {
    hide PutInt, PutU8, PutDevice;
    var c := m.cap;
    var a9 := PutU8(flag, a);
    var a8 := PutU64(c.maxMemory, a9);
    var a7 := PutU64(c.maxWork, a8);
    var a6 := PutU64(c.maxTokens, a7);
    var a5 := PutU32(c.maxBatch, a6);
    var a4 := PutDevice(c.device, a5);
    var a3 := PutU8(c.backend, a4);
    var a2 := PutU64(c.worker, a3);
    U8Append(flag, a, b);
    IntAppend(c.maxMemory, 8, a9, b);
    IntAppend(c.maxWork, 8, a8, b);
    IntAppend(c.maxTokens, 8, a7, b);
    IntAppend(c.maxBatch, 4, a6, b);
    DeviceAppend(c.device, a5, b);
    U8Append(c.backend, a4, b);
    IntAppend(c.worker, 8, a3, b);
    IntAppend(m.boot, 8, a2, b);
    IntAppend(m.worker, 8, PutU64(m.boot, a2), b);
  }

  // ---- whole messages ----

  function EncodeSubmit(m: Metadata): Bytes { PutMeta(m, []) }

  function DecodeSubmit(b: Bytes): Option<Metadata> { Whole(GetMeta(b)) }

  function EncodeDispatch(e: Execution): Bytes { PutExecution(e, []) }

  function DecodeDispatch(b: Bytes): Option<Execution> { Whole(GetExecution(b)) }

  function EncodeComplete(c: Completion): Bytes { PutCompletion(c, []) }

  function DecodeComplete(b: Bytes): Option<Completion> { Whole(GetCompletion(b)) }

  function EncodeRegister(m: Register): Bytes { PutRegister(m, []) }

  function DecodeRegister(b: Bytes): Option<Register> { Whole(GetRegister(b)) }

  /** Submissions: a body is accepted exactly when it is the encoding of a message
      within the reader's limits, and then that message comes back. */
  lemma SubmitExact(b: Bytes, m: Metadata)
    ensures DecodeSubmit(b) == Some(m) <==> MetaFits(m) && b == EncodeSubmit(m)
  {
    hide PutMeta, GetMeta, MetaFits;
    if GetMeta(b).Some? { MetaCanonical(b); }
    if MetaFits(m) { MetaRoundTrip(m, []); }
  }

  /** Cutting an encoding short or appending to it makes it unacceptable. */
  lemma SubmitDelimits(m: Metadata, more: Bytes)
    requires MetaFits(m) && more != []
    ensures DecodeSubmit(EncodeSubmit(m) + more) == None
    ensures forall k :: 0 <= k < |EncodeSubmit(m)| ==> DecodeSubmit(EncodeSubmit(m)[..k]) == None
  {
    hide PutMeta, GetMeta, MetaFits;
    assert [] + more == more;
    MetaAppend(m, [], more);
    MetaRoundTrip(m, more);
    var b := EncodeSubmit(m);
    forall k | 0 <= k < |b| ensures DecodeSubmit(b[..k]) == None {
      if DecodeSubmit(b[..k]).Some? {
        var m' := DecodeSubmit(b[..k]).value;
        SubmitExact(b[..k], m');
        assert b == b[..k] + b[k..] && [] + b[k..] == b[k..];
        MetaAppend(m', [], b[k..]);
        MetaRoundTrip(m', b[k..]);
        MetaRoundTrip(m, []);
      }
    }
  }

  lemma DispatchExact(b: Bytes, e: Execution)
    ensures DecodeDispatch(b) == Some(e) <==> ExecutionFits(e) && b == EncodeDispatch(e)
  {
    hide PutExecution, GetExecution, ExecutionFits;
    if GetExecution(b).Some? { ExecutionCanonical(b); }
    if ExecutionFits(e) { ExecutionRoundTrip(e, []); }
  }

  lemma DispatchDelimits(e: Execution, more: Bytes)
    requires ExecutionFits(e) && more != []
    ensures DecodeDispatch(EncodeDispatch(e) + more) == None
    ensures forall k :: 0 <= k < |EncodeDispatch(e)| ==> DecodeDispatch(EncodeDispatch(e)[..k]) == None
  {
    hide PutExecution, GetExecution, ExecutionFits;
    assert [] + more == more;
    ExecutionAppend(e, [], more);
    ExecutionRoundTrip(e, more);
    var b := EncodeDispatch(e);
    forall k | 0 <= k < |b| ensures DecodeDispatch(b[..k]) == None {
      if DecodeDispatch(b[..k]).Some? {
        var e' := DecodeDispatch(b[..k]).value;
        DispatchExact(b[..k], e');
        assert b == b[..k] + b[k..] && [] + b[k..] == b[k..];
        ExecutionAppend(e', [], b[k..]);
        ExecutionRoundTrip(e', b[k..]);
        ExecutionRoundTrip(e, []);
      }
    }
  }

  lemma CompleteExact(b: Bytes, c: Completion)
    ensures DecodeComplete(b) == Some(c) <==> CompletionFits(c) && b == EncodeComplete(c)
  {
    hide PutCompletion, GetCompletion, CompletionFits;
    if GetCompletion(b).Some? { CompletionCanonical(b); }
    if CompletionFits(c) { CompletionRoundTrip(c, []); }
  }

  lemma CompleteDelimits(c: Completion, more: Bytes)
    requires CompletionFits(c) && more != []
    ensures DecodeComplete(EncodeComplete(c) + more) == None
    ensures forall k :: 0 <= k < |EncodeComplete(c)| ==> DecodeComplete(EncodeComplete(c)[..k]) == None
  {
    hide PutCompletion, GetCompletion, CompletionFits;
    assert [] + more == more;
    CompletionAppend(c, [], more);
    CompletionRoundTrip(c, more);
    var b := EncodeComplete(c);
    forall k | 0 <= k < |b| ensures DecodeComplete(b[..k]) == None {
      if DecodeComplete(b[..k]).Some? {
        var c' := DecodeComplete(b[..k]).value;
        CompleteExact(b[..k], c');
        assert b == b[..k] + b[k..] && [] + b[k..] == b[k..];
        CompletionAppend(c', [], b[k..]);
        CompletionRoundTrip(c', b[k..]);
        CompletionRoundTrip(c, []);
      }
    }
  }

  /** The flag is the one place where several bytes mean the same: any non-zero
      byte is read as true. */
  lemma RegisterExact(b: Bytes, m: Register)
    ensures DecodeRegister(b) == Some(m)
            <==> RegisterFits(m) && exists flag: U8 :: (flag != 0) == m.cap.cancellation && b == PutRegisterWith(m, flag, [])
  {
    hide PutRegisterWith, GetRegister, RegisterFits;
    if DecodeRegister(b) == Some(m) {
      var flag := RegisterCanonical(b);
      assert b == PutRegisterWith(m, flag, []);
    }
    forall flag: U8 | RegisterFits(m) && (flag != 0) == m.cap.cancellation && b == PutRegisterWith(m, flag, [])
      ensures DecodeRegister(b) == Some(m)
    { RegisterRoundTrip(m, flag, []); }
  }

  lemma RegisterDelimits(m: Register, more: Bytes)
    requires RegisterFits(m) && more != []
    ensures DecodeRegister(EncodeRegister(m)) == Some(m) && DecodeRegister(EncodeRegister(m) + more) == None
    ensures forall k :: 0 <= k < |EncodeRegister(m)| ==> DecodeRegister(EncodeRegister(m)[..k]) == None
  {
    hide PutRegisterWith, GetRegister, RegisterFits;
    var flag := if m.cap.cancellation then 1 else 0;
    var b := EncodeRegister(m);
    RegisterRoundTrip(m, flag, []);
    assert [] + more == more;
    RegisterAppend(m, flag, [], more);
    RegisterRoundTrip(m, flag, more);
    forall k | 0 <= k < |b| ensures DecodeRegister(b[..k]) == None {
      if DecodeRegister(b[..k]).Some? {
        var m' := DecodeRegister(b[..k]).value;
        var flag' := RegisterCanonical(b[..k]);
        assert b == b[..k] + b[k..] && [] + b[k..] == b[k..];
        RegisterAppend(m', flag', [], b[k..]);
        RegisterRoundTrip(m', flag', b[k..]);
      }
    }
  }
}
