/** The formats of the wire and of the state file as flat lists of fields, and the bytes
    of a field by place value. */
module Layout {
  import opened Types
  import opened Octets
  import opened Identity
  import opened Wire
  import opened Persistence
  import opened StateFile
  import Sha256Spec

  /** Numbers of one, four and eight bytes, a signed time, a string behind its length, and
      bytes as they are. */
  datatype Field = Octet(byte: U8) | Word(word: nat) | Long(long: nat) | Time(time: I64) | Text(text: Bytes) | Raw(raw: Bytes)

  function Four(v: nat): (b: Bytes)
    ensures |b| == 4
  {
    [v / 0x100_0000 % 256, v / 0x1_0000 % 256, v / 0x100 % 256, v % 256]
  }

  function Eight(v: nat): Bytes { Four(v / 0x1_0000_0000) + Four(v) }

  function Spelled(f: Field): Bytes {
    match f
    case Octet(v) => [v]
    case Word(v) => Four(v)
    case Long(v) => Eight(v)
    case Time(t) => Eight(if t < 0 then 0x1_0000_0000_0000_0000 + t else t)
    case Text(s) => Eight(|s|) + s
    case Raw(s) => s
  }

  /** The fields one after another, then `rest`. */
  function Laid(fs: seq<Field>, rest: Bytes): Bytes {
    if |fs| == 0 then rest else Spelled(fs[0]) + Laid(fs[1..], rest)
  }

  /** The fields of each record in turn. */
  function Each<T>(fields: T -> seq<Field>, xs: seq<T>): seq<Field> {
    if xs == [] then [] else fields(xs[0]) + Each(fields, xs[1..])
  }

  // ---- the formats ----

  function DescriptorFields(d: Descriptor): seq<Field> {
    [Octet(1), Text(d.model), Text(d.revision), Text(d.adapter), Text(d.tokenizer)]
    + [Octet(d.phase), Octet(d.dtype), Octet(d.backend), Octet(d.mode)]
    + [Octet(d.device.backend), Word(d.device.major), Word(d.device.minor), Long(d.device.minMemory)]
    + [Text(d.shape), Text(d.sampling), Word(|d.extensions| % 0x1_0000_0000)]
    + Each(x => [Text(x)], d.extensions)
  }

  function SubmitFields(m: Metadata): seq<Field> {
    [Long(m.tenant), Long(m.session), Long(m.sequence)]
    + DescriptorFields(m.descriptor)
    + [Long(m.input), Long(m.output), Long(m.work), Long(m.memory)]
    + [Time(m.deadline), Octet(m.latency), Octet(m.priority), Text(m.payload)]
  }

  function WorkFields(m: MemberWork): seq<Field> {
    [Long(m.request), Long(m.attempt), Long(m.work), Long(m.input), Long(m.output), Text(m.payload)]
  }

  function DispatchFields(e: Execution): seq<Field> {
    [Long(e.batch), Long(e.generation), Long(e.epoch), Long(e.worker)]
    + DescriptorFields(e.descriptor)
    + [Word(|e.members| % 0x1_0000_0000)] + Each(WorkFields, e.members)
  }

  function OutcomeFields(m: MemberCompletion): seq<Field> {
    [Long(m.request), Long(m.attempt), Octet(m.status), Text(m.result), Word(m.errorCode), Text(m.errorMessage)]
  }

  function CompleteFields(c: Completion): seq<Field> {
    [Long(c.worker), Long(c.boot), Long(c.epoch), Long(c.generation), Long(c.batch), Word(|c.members| % 0x1_0000_0000)]
    + Each(OutcomeFields, c.members)
  }

  function RegisterFields(m: Register): seq<Field> {
    [Long(m.worker), Long(m.boot), Long(m.cap.worker), Octet(m.cap.backend)]
    + [Octet(m.cap.device.backend), Word(m.cap.device.major), Word(m.cap.device.minor), Long(m.cap.device.minMemory)]
    + [Word(m.cap.maxBatch), Long(m.cap.maxTokens), Long(m.cap.maxWork), Long(m.cap.maxMemory), Octet(if m.cap.cancellation then 1 else 0)]
  }

  function Counted(xs: seq<U64>): seq<Field> { [Long(|xs|)] + Each(x => [Long(x)], xs) }

  function RequestFields(r: SavedRequest): seq<Field> {
    [Long(r.id)] + SubmitFields(r.meta)
    + [Octet(r.state), Time(r.submitted), Long(r.batch), Long(r.attempt)] + Counted(r.attempts)
  }

  function AttemptFields(a: SavedAttempt): seq<Field> {
    [Long(a.id), Word(a.number), Octet(a.state), Long(a.batch)]
    + [Octet(a.outcome), Text(a.result), Time(a.started), Time(a.completed)]
  }

  function BatchFields(b: SavedBatch): seq<Field> {
    [Long(b.id), Long(b.generation), Long(b.epoch), Octet(b.state), Raw(b.key)] + Counted(b.members)
    + [Word(b.used.count), Long(b.used.input), Long(b.used.output), Long(b.used.work), Long(b.used.memory)]
    + [Time(b.stamps.formed), Time(b.stamps.closed), Time(b.stamps.dispatched), Time(b.stamps.completed)]
    + [Octet(b.stamps.reason), Long(b.stamps.worker), Long(b.stamps.boot)]
    + Counted(b.parents) + Counted(b.children)
  }

  function ServedFields(p: (Bytes, U64)): seq<Field> { [Text(p.0), Long(p.1)] }

  /** The magic number, the version, the counters and the three tables with their sizes up
      front, then what each tenant has been served. */
  function FileFields(t: Tables, ps: Listing): seq<Field> {
    var c := t.counters;
    [Word(0x46435254), Word(1)]
    + [Long(c.epoch), Long(c.nextRequest), Long(c.nextBatch), Long(c.nextAttempt), Long(c.nextGeneration)]
    + [Long(|t.requests|), Long(|t.attempts|), Long(|t.batches|)]
    + Each(RequestFields, t.requests) + Each(AttemptFields, t.attempts) + Each(BatchFields, t.batches)
    + [Long(|ps|)] + Each(ServedFields, ps)
  }

  // ---- lists of fields ----

  lemma {:induction false} LaidAppend(fs: seq<Field>, gs: seq<Field>, rest: Bytes)
    ensures Laid(fs + gs, rest) == Laid(fs, Laid(gs, rest))
  {
    hide Spelled;
    if fs == [] {
      assert fs + gs == gs;
    } else {
      assert (fs + gs)[1..] == fs[1..] + gs;
      LaidAppend(fs[1..], gs, rest);
    }
  }

  lemma Empty(rest: Bytes)
    ensures Laid([], rest) == rest
  {
  }

  lemma First(f: Field, fs: seq<Field>, rest: Bytes)
    ensures Laid([f] + fs, rest) == Spelled(f) + Laid(fs, rest)
  {
    assert ([f] + fs)[1..] == fs;
  }

  lemma One(a: Field, rest: Bytes)
    ensures Laid([a], rest) == Spelled(a) + rest
  {
    hide Spelled;
    First(a, [], rest);
    assert [a] + [] == [a];
  }

  lemma Two(a: Field, b: Field, rest: Bytes)
    ensures Laid([a, b], rest) == Spelled(a) + (Spelled(b) + rest)
  {
    hide Spelled;
    One(b, rest);
    First(a, [b], rest);
    assert [a] + [b] == [a, b];
  }

  lemma Three(a: Field, b: Field, c: Field, rest: Bytes)
    ensures Laid([a, b, c], rest) == Spelled(a) + (Spelled(b) + (Spelled(c) + rest))
  {
    hide Spelled;
    Two(b, c, rest);
    First(a, [b, c], rest);
    assert [a] + [b, c] == [a, b, c];
  }

  lemma FourOf(a: Field, b: Field, c: Field, d: Field, rest: Bytes)
    ensures Laid([a, b, c, d], rest) == Spelled(a) + (Spelled(b) + (Spelled(c) + (Spelled(d) + rest)))
  {
    hide Spelled;
    Three(b, c, d, rest);
    First(a, [b, c, d], rest);
    assert [a] + [b, c, d] == [a, b, c, d];
  }

  lemma Five(a: Field, b: Field, c: Field, d: Field, e: Field, rest: Bytes)
    ensures Laid([a, b, c, d, e], rest) == Spelled(a) + (Spelled(b) + (Spelled(c) + (Spelled(d) + (Spelled(e) + rest))))
  {
    hide Spelled;
    FourOf(b, c, d, e, rest);
    First(a, [b, c, d, e], rest);
    assert [a] + [b, c, d, e] == [a, b, c, d, e];
  }

  lemma Six(a: Field, b: Field, c: Field, d: Field, e: Field, f: Field, rest: Bytes)
    ensures Laid([a, b, c, d, e, f], rest)
         == Spelled(a) + (Spelled(b) + (Spelled(c) + (Spelled(d) + (Spelled(e) + (Spelled(f) + rest)))))
  {
    hide Spelled;
    Five(b, c, d, e, f, rest);
    First(a, [b, c, d, e, f], rest);
    assert [a] + [b, c, d, e, f] == [a, b, c, d, e, f];
  }

  /** A list of records is the list of their fields. */
  lemma {:induction false} ListLaid<T(!new)>(put: (T, Bytes) -> Bytes, fields: T -> seq<Field>, xs: seq<T>, rest: Bytes)
    requires forall x, r :: put(x, r) == Laid(fields(x), r)
    ensures PutList(put, xs, rest) == Laid(Each(fields, xs), rest)
  {
    hide Laid;
    if xs == [] {
      Empty(rest);
    } else {
      ListLaid(put, fields, xs[1..], rest);
      LaidAppend(fields(xs[0]), Each(fields, xs[1..]), rest);
    }
  }

  // ---- numbers and strings ----

  /** Repeated division gives the digits by place value. */
  lemma FourExact(v: nat)
    ensures BigEndian(v, 4) == Four(v)
  {
    var a := v / 256;
    var b := a / 256;
    var c := b / 256;
    assert BigEndian(c, 1) == BigEndian(c / 256, 0) + [c % 256];
    assert BigEndian(b, 2) == BigEndian(c, 1) + [b % 256];
    assert BigEndian(a, 3) == BigEndian(b, 2) + [a % 256];
    assert BigEndian(v, 4) == BigEndian(a, 3) + [v % 256];
    assert b == v / 0x1_0000 && c == v / 0x100_0000;
  }

  lemma EightExact(v: nat)
    ensures BigEndian(v, 8) == Eight(v)
  {
    hide Four;
    var w := v / 0x1_0000_0000;
    FourExact(w);
    FourExact(v);
    Lower(v);
  }

  /** Four more bytes. */
  lemma Lower(v: nat)
    ensures BigEndian(v, 8) == BigEndian(v / 0x1_0000_0000, 4) + BigEndian(v, 4)
  {
    var a := v / 256;
    var b := a / 256;
    var c := b / 256;
    var d := c / 256;
    assert d == v / 0x1_0000_0000;
    var x := BigEndian(d, 4);
    assert BigEndian(c, 5) == x + [c % 256];
    assert BigEndian(b, 6) == BigEndian(c, 5) + [b % 256];
    assert BigEndian(a, 7) == BigEndian(b, 6) + [a % 256];
    assert BigEndian(v, 8) == BigEndian(a, 7) + [v % 256];
    FourExact(v);
  }

  lemma OctetExact(v: U8, rest: Bytes)
    ensures PutU8(v, rest) == Spelled(Octet(v)) + rest
  {
  }

  lemma WordExact(v: U32, rest: Bytes)
    ensures PutU32(v, rest) == Spelled(Word(v)) + rest
  {
    hide Four, BigEndian;
    FourExact(v);
  }

  lemma LongExact(v: nat, rest: Bytes)
    ensures PutU64(v, rest) == Spelled(Long(v)) + rest
  {
    hide Eight, BigEndian;
    EightExact(v);
  }

  lemma TimeExact(t: I64, rest: Bytes)
    ensures PutI64(t, rest) == Spelled(Time(t)) + rest
  {
    hide Eight, BigEndian;
    EightExact(Unsigned(t));
  }

  lemma TextExact(s: Bytes, rest: Bytes)
    ensures PutString(s, rest) == Spelled(Text(s)) + rest
  {
    hide Eight, BigEndian;
    EightExact(|s|);
    assert Eight(|s|) + (s + rest) == (Eight(|s|) + s) + rest;
  }

  // ---- descriptors ----

  lemma DeviceLaid(d: Device, rest: Bytes)
    ensures PutDevice(d, rest) == Laid([Octet(d.backend), Word(d.major), Word(d.minor), Long(d.minMemory)], rest)
  {
    hide PutU8, PutU32, PutU64, Spelled, Laid;
    var r3 := PutU64(d.minMemory, rest);
    var r2 := PutU32(d.minor, r3);
    LongExact(d.minMemory, rest);
    WordExact(d.minor, r3);
    WordExact(d.major, r2);
    OctetExact(d.backend, PutU32(d.major, r2));
    FourOf(Octet(d.backend), Word(d.major), Word(d.minor), Long(d.minMemory), rest);
  }

  lemma TraitsLaid(t: Traits, rest: Bytes)
    ensures PutTraits(t, rest) == Laid([Octet(t.phase), Octet(t.dtype), Octet(t.backend), Octet(t.mode)], PutDevice(t.device, rest))
  {
    hide PutU8, PutDevice, Spelled, Laid;
    var r4 := PutDevice(t.device, rest);
    var r3 := PutU8(t.mode, r4);
    var r2 := PutU8(t.backend, r3);
    OctetExact(t.mode, r4);
    OctetExact(t.backend, r3);
    OctetExact(t.dtype, r2);
    OctetExact(t.phase, PutU8(t.dtype, r2));
    FourOf(Octet(t.phase), Octet(t.dtype), Octet(t.backend), Octet(t.mode), r4);
  }

  lemma NamesLaid(n: Names, rest: Bytes)
    ensures PutU8(1, PutNames(n, rest)) == Laid([Octet(1), Text(n.model), Text(n.revision), Text(n.adapter), Text(n.tokenizer)], rest)
  {
    hide PutU8, PutString, Spelled, Laid;
    var r4 := PutString(n.tokenizer, rest);
    var r3 := PutString(n.adapter, r4);
    var r2 := PutString(n.revision, r3);
    TextExact(n.tokenizer, rest);
    TextExact(n.adapter, r4);
    TextExact(n.revision, r3);
    TextExact(n.model, r2);
    OctetExact(1, PutString(n.model, r2));
    Five(Octet(1), Text(n.model), Text(n.revision), Text(n.adapter), Text(n.tokenizer), rest);
  }

  lemma {:induction false} TextsLaid(xs: seq<Bytes>, rest: Bytes)
    ensures PutStrings(xs, rest) == Laid(Each(x => [Text(x)], xs), rest)
  {
    hide PutString, Spelled, Laid;
    if xs == [] { Empty(rest); } else {
      TextsLaid(xs[1..], rest);
      TextExact(xs[0], PutStrings(xs[1..], rest));
      First(Text(xs[0]), Each(x => [Text(x)], xs[1..]), rest);
    }
  }

  lemma DescriptorLaid(d: Descriptor, rest: Bytes)
    ensures PutDescriptor(d, rest) == Laid(DescriptorFields(d), rest)
  {
    hide PutU8, PutU32, PutString, PutNames, PutTraits, PutDevice, PutStrings, Spelled, Laid, Each;
    var names := [Octet(1), Text(d.model), Text(d.revision), Text(d.adapter), Text(d.tokenizer)];
    var traits := [Octet(d.phase), Octet(d.dtype), Octet(d.backend), Octet(d.mode)];
    var device := [Octet(d.device.backend), Word(d.device.major), Word(d.device.minor), Long(d.device.minMemory)];
    var tail := [Text(d.shape), Text(d.sampling), Word(|d.extensions| % 0x1_0000_0000)];
    var exts := Each(x => [Text(x)], d.extensions);
    var r4 := PutStrings(d.extensions, rest);
    var r3 := PutU32(|d.extensions| % 0x1_0000_0000, r4);
    var r2 := PutString(d.sampling, r3);
    var r1 := PutString(d.shape, r2);
    TextsLaid(d.extensions, rest);
    WordExact(|d.extensions| % 0x1_0000_0000, r4);
    TextExact(d.sampling, r3);
    TextExact(d.shape, r2);
    Three(tail[0], tail[1], tail[2], r4);
    DeviceLaid(d.device, r1);
    TraitsLaid(TraitsOf(d), r1);
    NamesLaid(NamesOf(d), PutTraits(TraitsOf(d), r1));
    LaidAppend(names + traits + device + tail, exts, rest);
    LaidAppend(names + traits + device, tail, r4);
    LaidAppend(names + traits, device, r1);
    LaidAppend(names, traits, PutDevice(d.device, r1));
  }

  /** The bytes that are hashed into the compatibility key. */
  lemma KeyLayout(d: Descriptor)
    ensures KeyOf(d) == Sha256Spec.Digest(Laid(DescriptorFields(d), []))
  {
    hide PutDescriptor, DescriptorFields, Laid, Sha256Spec.Digest;
    DescriptorLaid(d, []);
  }

  // ---- messages ----

  lemma EstimatesLaid(m: Metadata, rest: Bytes)
    ensures PutEstimates(EstimatesOf(m), PutString(m.payload, rest))
         == Laid([Long(m.input), Long(m.output), Long(m.work), Long(m.memory)]
                 + [Time(m.deadline), Octet(m.latency), Octet(m.priority), Text(m.payload)], rest)
  {
    hide PutU8, PutU64, PutI64, PutString, Spelled, Laid;
    var sizes := [Long(m.input), Long(m.output), Long(m.work), Long(m.memory)];
    var others := [Time(m.deadline), Octet(m.latency), Octet(m.priority), Text(m.payload)];
    var r7 := PutString(m.payload, rest);
    var r6 := PutU8(m.priority, r7);
    var r5 := PutU8(m.latency, r6);
    var r4 := PutI64(m.deadline, r5);
    var r3 := PutU64(m.memory, r4);
    var r2 := PutU64(m.work, r3);
    TextExact(m.payload, rest);
    OctetExact(m.priority, r7);
    OctetExact(m.latency, r6);
    TimeExact(m.deadline, r5);
    FourOf(others[0], others[1], others[2], others[3], rest);
    LongExact(m.memory, r4);
    LongExact(m.work, r3);
    LongExact(m.output, r2);
    LongExact(m.input, PutU64(m.output, r2));
    FourOf(sizes[0], sizes[1], sizes[2], sizes[3], r4);
    LaidAppend(sizes, others, rest);
  }

  lemma MetaLaid(m: Metadata, rest: Bytes)
    ensures PutMeta(m, rest) == Laid(SubmitFields(m), rest)
  {
    hide PutU64, PutDescriptor, PutEstimates, PutString, Spelled, Laid, DescriptorFields;
    var head, d := [Long(m.tenant), Long(m.session), Long(m.sequence)], DescriptorFields(m.descriptor);
    var sizes := [Long(m.input), Long(m.output), Long(m.work), Long(m.memory)];
    var others := [Time(m.deadline), Octet(m.latency), Octet(m.priority), Text(m.payload)];
    var r4 := PutEstimates(EstimatesOf(m), PutString(m.payload, rest));
    var r3 := PutDescriptor(m.descriptor, r4);
    var r2 := PutU64(m.sequence, r3);
    EstimatesLaid(m, rest);
    DescriptorLaid(m.descriptor, r4);
    LongExact(m.sequence, r3);
    LongExact(m.session, r2);
    LongExact(m.tenant, PutU64(m.session, r2));
    Three(head[0], head[1], head[2], r3);
    LaidAppend(head, d, r4);
    LaidAppend(head + d, sizes + others, rest);
    assert head + d + (sizes + others) == SubmitFields(m);
  }

  /** The body of a submission. */
  lemma SubmitLayout(m: Metadata)
    ensures EncodeSubmit(m) == Laid(SubmitFields(m), [])
  {
    hide PutMeta, SubmitFields, Laid;
    MetaLaid(m, []);
  }

  lemma WorkLaid(m: MemberWork, rest: Bytes)
    ensures PutWork(m, rest) == Laid(WorkFields(m), rest)
  {
    hide PutU64, PutString, Spelled, Laid;
    var r5 := PutString(m.payload, rest);
    var r4 := PutU64(m.output, r5);
    var r3 := PutU64(m.input, r4);
    var r2 := PutU64(m.work, r3);
    TextExact(m.payload, rest);
    LongExact(m.output, r5);
    LongExact(m.input, r4);
    LongExact(m.work, r3);
    LongExact(m.attempt, r2);
    LongExact(m.request, PutU64(m.attempt, r2));
    Six(Long(m.request), Long(m.attempt), Long(m.work), Long(m.input), Long(m.output), Text(m.payload), rest);
  }

  /** The body of a dispatch. */
  lemma DispatchLayout(e: Execution)
    ensures EncodeDispatch(e) == Laid(DispatchFields(e), [])
  {
    hide PutU64, PutU32, PutDescriptor, PutWork, PutList, Spelled, Laid, DescriptorFields, Each, WorkFields;
    var head, d, n := [Long(e.batch), Long(e.generation), Long(e.epoch), Long(e.worker)], DescriptorFields(e.descriptor), |e.members| % 0x1_0000_0000;
    var r6 := PutList(PutWork, e.members, []);
    var r5 := PutU32(n, r6);
    var r4 := PutDescriptor(e.descriptor, r5);
    var r3 := PutU64(e.worker, r4);
    var r2 := PutU64(e.epoch, r3);
    forall x, r ensures PutWork(x, r) == Laid(WorkFields(x), r) { WorkLaid(x, r); }
    ListLaid(PutWork, WorkFields, e.members, []);
    WordExact(n, r6);
    One(Word(n), r6);
    DescriptorLaid(e.descriptor, r5);
    LongExact(e.worker, r4);
    LongExact(e.epoch, r3);
    LongExact(e.generation, r2);
    LongExact(e.batch, PutU64(e.generation, r2));
    FourOf(head[0], head[1], head[2], head[3], r4);
    LaidAppend(head + d + [Word(n)], Each(WorkFields, e.members), []);
    LaidAppend(head + d, [Word(n)], r6);
    LaidAppend(head, d, r5);
  }

  lemma OutcomeLaid(m: MemberCompletion, rest: Bytes)
    ensures PutOutcome(m, rest) == Laid(OutcomeFields(m), rest)
  {
    hide PutU8, PutU32, PutU64, PutString, Spelled, Laid;
    var r5 := PutString(m.errorMessage, rest);
    var r4 := PutU32(m.errorCode, r5);
    var r3 := PutString(m.result, r4);
    var r2 := PutU8(m.status, r3);
    TextExact(m.errorMessage, rest);
    WordExact(m.errorCode, r5);
    TextExact(m.result, r4);
    OctetExact(m.status, r3);
    LongExact(m.attempt, r2);
    LongExact(m.request, PutU64(m.attempt, r2));
    Six(Long(m.request), Long(m.attempt), Octet(m.status), Text(m.result), Word(m.errorCode), Text(m.errorMessage), rest);
  }

  /** The body of a report. */
  lemma CompleteLayout(c: Completion)
    ensures EncodeComplete(c) == Laid(CompleteFields(c), [])
  {
    hide PutU64, PutU32, PutOutcome, PutList, Spelled, Laid, Each, OutcomeFields;
    var n := |c.members| % 0x1_0000_0000;
    var head := [Long(c.worker), Long(c.boot), Long(c.epoch), Long(c.generation), Long(c.batch), Word(n)];
    var r6 := PutList(PutOutcome, c.members, []);
    var r5 := PutU32(n, r6);
    var r4 := PutU64(c.batch, r5);
    var r3 := PutU64(c.generation, r4);
    var r2 := PutU64(c.epoch, r3);
    forall x, r ensures PutOutcome(x, r) == Laid(OutcomeFields(x), r) { OutcomeLaid(x, r); }
    ListLaid(PutOutcome, OutcomeFields, c.members, []);
    WordExact(n, r6);
    LongExact(c.batch, r5);
    LongExact(c.generation, r4);
    LongExact(c.epoch, r3);
    LongExact(c.boot, r2);
    LongExact(c.worker, PutU64(c.boot, r2));
    Six(head[0], head[1], head[2], head[3], head[4], head[5], r6);
    LaidAppend(head, Each(OutcomeFields, c.members), []);
  }

  /** The body of a registration. */
  lemma RegisterLayout(m: Register)
    ensures EncodeRegister(m) == Laid(RegisterFields(m), [])
  {
    hide PutU8, PutU64, PutU32, PutDevice, Spelled, Laid;
    var c, flag := m.cap, if m.cap.cancellation then 1 else 0;
    var head := [Long(m.worker), Long(m.boot), Long(c.worker), Octet(c.backend)];
    var device := [Octet(c.device.backend), Word(c.device.major), Word(c.device.minor), Long(c.device.minMemory)];
    var limits := [Word(c.maxBatch), Long(c.maxTokens), Long(c.maxWork), Long(c.maxMemory), Octet(flag)];
    var r9 := PutU8(flag, []);
    var r8 := PutU64(c.maxMemory, r9);
    var r7 := PutU64(c.maxWork, r8);
    var r6 := PutU64(c.maxTokens, r7);
    var r5 := PutU32(c.maxBatch, r6);
    var r4 := PutDevice(c.device, r5);
    var r3 := PutU8(c.backend, r4);
    var r2 := PutU64(c.worker, r3);
    OctetExact(flag, []);
    LongExact(c.maxMemory, r9);
    LongExact(c.maxWork, r8);
    LongExact(c.maxTokens, r7);
    WordExact(c.maxBatch, r6);
    Five(limits[0], limits[1], limits[2], limits[3], limits[4], []);
    DeviceLaid(c.device, r5);
    OctetExact(c.backend, r4);
    LongExact(c.worker, r3);
    LongExact(m.boot, r2);
    LongExact(m.worker, PutU64(m.boot, r2));
    FourOf(head[0], head[1], head[2], head[3], r4);
    LaidAppend(head + device, limits, []);
    LaidAppend(head, device, r5);
  }

  // ---- the state file ----

  lemma {:induction false} IdsLaid(xs: seq<U64>, rest: Bytes)
    ensures PutIds(xs, rest) == Laid(Each(x => [Long(x)], xs), rest)
  {
    hide PutU64, Spelled, Laid;
    if xs == [] { Empty(rest); } else {
      IdsLaid(xs[1..], rest);
      LongExact(xs[0], PutIds(xs[1..], rest));
      First(Long(xs[0]), Each(x => [Long(x)], xs[1..]), rest);
    }
  }

  lemma CountedLaid(xs: seq<U64>, rest: Bytes)
    ensures PutCounted(xs, rest) == Laid(Counted(xs), rest)
  {
    hide PutU64, PutIds, Spelled, Laid, Each;
    IdsLaid(xs, rest);
    LongExact(|xs|, PutIds(xs, rest));
    First(Long(|xs|), Each(x => [Long(x)], xs), rest);
  }

  lemma RequestLaid(r: SavedRequest, rest: Bytes)
    ensures PutRequest(r, rest) == Laid(RequestFields(r), rest)
  {
    hide PutU64, PutU8, PutI64, PutMeta, PutCounted, Spelled, Laid, SubmitFields, Counted;
    var head, meta, mid := [Long(r.id)], SubmitFields(r.meta), [Octet(r.state), Time(r.submitted), Long(r.batch), Long(r.attempt)];
    var r6 := PutCounted(r.attempts, rest);
    var r5 := PutU64(r.attempt, r6);
    var r4 := PutU64(r.batch, r5);
    var r3 := PutI64(r.submitted, r4);
    var r2 := PutU8(r.state, r3);
    CountedLaid(r.attempts, rest);
    LongExact(r.attempt, r6);
    LongExact(r.batch, r5);
    TimeExact(r.submitted, r4);
    OctetExact(r.state, r3);
    FourOf(mid[0], mid[1], mid[2], mid[3], r6);
    MetaLaid(r.meta, r2);
    LongExact(r.id, PutMeta(r.meta, r2));
    One(Long(r.id), PutMeta(r.meta, r2));
    LaidAppend(head + meta + mid, Counted(r.attempts), rest);
    LaidAppend(head + meta, mid, r6);
    LaidAppend(head, meta, r2);
  }

  lemma AttemptLaid(a: SavedAttempt, rest: Bytes)
    ensures PutAttempt(a, rest) == Laid(AttemptFields(a), rest)
  {
    hide PutU64, PutU32, PutU8, PutI64, PutString, Spelled, Laid;
    var head, tail := [Long(a.id), Word(a.number), Octet(a.state), Long(a.batch)], [Octet(a.outcome), Text(a.result), Time(a.started), Time(a.completed)];
    var r7 := PutI64(a.completed, rest);
    var r6 := PutI64(a.started, r7);
    var r5 := PutString(a.result, r6);
    var r4 := PutU8(a.outcome, r5);
    var r3 := PutU64(a.batch, r4);
    var r2 := PutU8(a.state, r3);
    TimeExact(a.completed, rest);
    TimeExact(a.started, r7);
    TextExact(a.result, r6);
    OctetExact(a.outcome, r5);
    FourOf(tail[0], tail[1], tail[2], tail[3], rest);
    LongExact(a.batch, r4);
    OctetExact(a.state, r3);
    WordExact(a.number, r2);
    LongExact(a.id, PutU32(a.number, r2));
    FourOf(head[0], head[1], head[2], head[3], r4);
    LaidAppend(head, tail, rest);
  }

  lemma AccumLaid(a: Accum, rest: Bytes)
    ensures PutAccum(a, rest) == Laid([Word(a.count), Long(a.input), Long(a.output), Long(a.work), Long(a.memory)], rest)
  {
    hide PutU64, PutU32, Spelled, Laid;
    var r4 := PutU64(a.memory, rest);
    var r3 := PutU64(a.work, r4);
    var r2 := PutU64(a.output, r3);
    LongExact(a.memory, rest);
    LongExact(a.work, r4);
    LongExact(a.output, r3);
    LongExact(a.input, r2);
    WordExact(a.count, PutU64(a.input, r2));
    Five(Word(a.count), Long(a.input), Long(a.output), Long(a.work), Long(a.memory), rest);
  }

  lemma StampsLaid(s: Stamps, rest: Bytes)
    ensures PutStamps(s, rest)
         == Laid([Time(s.formed), Time(s.closed), Time(s.dispatched), Time(s.completed)],
                 Laid([Octet(s.reason), Long(s.worker), Long(s.boot)], rest))
  {
    hide PutU64, PutU8, PutI64, Spelled, Laid;
    var r6 := PutU64(s.boot, rest);
    var r5 := PutU64(s.worker, r6);
    var r4 := PutU8(s.reason, r5);
    var r3 := PutI64(s.completed, r4);
    var r2 := PutI64(s.dispatched, r3);
    LongExact(s.boot, rest);
    LongExact(s.worker, r6);
    OctetExact(s.reason, r5);
    Three(Octet(s.reason), Long(s.worker), Long(s.boot), rest);
    TimeExact(s.completed, r4);
    TimeExact(s.dispatched, r3);
    TimeExact(s.closed, r2);
    TimeExact(s.formed, PutI64(s.closed, r2));
    FourOf(Time(s.formed), Time(s.closed), Time(s.dispatched), Time(s.completed), r4);
  }

  lemma BatchHeadLaid(b: SavedBatch, rest: Bytes)
    ensures PutU64(b.id, PutU64(b.generation, PutU64(b.epoch, PutU8(b.state, b.key + rest))))
         == Laid([Long(b.id), Long(b.generation), Long(b.epoch), Octet(b.state), Raw(b.key)], rest)
  {
    hide PutU64, PutU8, Laid, Four, Eight;
    var r4 := PutU8(b.state, b.key + rest);
    var r3 := PutU64(b.epoch, r4);
    OctetExact(b.state, b.key + rest);
    LongExact(b.epoch, r4);
    LongExact(b.generation, r3);
    LongExact(b.id, PutU64(b.generation, r3));
    assert Spelled(Raw(b.key)) == b.key;
    Five(Long(b.id), Long(b.generation), Long(b.epoch), Octet(b.state), Raw(b.key), rest);
  }

  lemma BatchLaid(b: SavedBatch, rest: Bytes)
    ensures PutBatch(b, rest) == Laid(BatchFields(b), rest)
  {
    hide PutU64, PutU8, PutCounted, PutAccum, PutStamps, Spelled, Laid, Counted;
    var s := b.stamps;
    var head := [Long(b.id), Long(b.generation), Long(b.epoch), Octet(b.state), Raw(b.key)];
    var used := [Word(b.used.count), Long(b.used.input), Long(b.used.output), Long(b.used.work), Long(b.used.memory)];
    var times, site := [Time(s.formed), Time(s.closed), Time(s.dispatched), Time(s.completed)], [Octet(s.reason), Long(s.worker), Long(s.boot)];
    var r5 := PutCounted(b.children, rest);
    var r4 := PutCounted(b.parents, r5);
    var r3 := PutStamps(s, r4);
    var r2 := PutAccum(b.used, r3);
    var r1 := PutCounted(b.members, r2);
    CountedLaid(b.children, rest);
    CountedLaid(b.parents, r5);
    StampsLaid(s, r4);
    AccumLaid(b.used, r3);
    CountedLaid(b.members, r2);
    BatchHeadLaid(b, r1);
    var f1 := head + Counted(b.members);
    var f3 := f1 + used + times;
    LaidAppend(f3 + site + Counted(b.parents), Counted(b.children), rest);
    LaidAppend(f3 + site, Counted(b.parents), r5);
    LaidAppend(f3, site, r4);
    LaidAppend(f1 + used, times, Laid(site, r4));
    LaidAppend(f1, used, r3);
    LaidAppend(head, Counted(b.members), r2);
  }

  lemma ServedLaid(p: (Bytes, U64), rest: Bytes)
    ensures PutPair(p, rest) == Laid(ServedFields(p), rest)
  {
    hide PutU64, PutString, Spelled, Laid;
    LongExact(p.1, rest);
    TextExact(p.0, PutU64(p.1, rest));
    Two(Text(p.0), Long(p.1), rest);
  }

  lemma CountersLaid(c: Counters, rest: Bytes)
    ensures PutCounters(c, rest)
         == Laid([Long(c.epoch), Long(c.nextRequest), Long(c.nextBatch), Long(c.nextAttempt), Long(c.nextGeneration)], rest)
  {
    hide PutU64, Spelled, Laid;
    var r4 := PutU64(c.nextGeneration, rest);
    var r3 := PutU64(c.nextAttempt, r4);
    var r2 := PutU64(c.nextBatch, r3);
    LongExact(c.nextGeneration, rest);
    LongExact(c.nextAttempt, r4);
    LongExact(c.nextBatch, r3);
    LongExact(c.nextRequest, r2);
    LongExact(c.epoch, PutU64(c.nextRequest, r2));
    Five(Long(c.epoch), Long(c.nextRequest), Long(c.nextBatch), Long(c.nextAttempt), Long(c.nextGeneration), rest);
  }

  lemma HeaderLaid(h: Header, rest: Bytes)
    ensures var c := h.counters;
            PutHeader(h, rest)
            == Laid([Word(0x46435254), Word(1)]
                    + [Long(c.epoch), Long(c.nextRequest), Long(c.nextBatch), Long(c.nextAttempt), Long(c.nextGeneration)]
                    + [Long(h.requests), Long(h.attempts), Long(h.batches)], rest)
  {
    hide PutU64, PutU32, PutCounters, Spelled, Laid;
    var c := h.counters;
    var head, sizes := [Word(0x46435254), Word(1)], [Long(h.requests), Long(h.attempts), Long(h.batches)];
    var counters := [Long(c.epoch), Long(c.nextRequest), Long(c.nextBatch), Long(c.nextAttempt), Long(c.nextGeneration)];
    var r5 := PutU64(h.batches, rest);
    var r4 := PutU64(h.attempts, r5);
    var r3 := PutU64(h.requests, r4);
    var r2 := PutCounters(c, r3);
    LongExact(h.batches, rest);
    LongExact(h.attempts, r5);
    LongExact(h.requests, r4);
    Three(sizes[0], sizes[1], sizes[2], rest);
    CountersLaid(c, r3);
    WordExact(VERSION, r2);
    WordExact(MAGIC, PutU32(VERSION, r2));
    Two(head[0], head[1], r2);
    LaidAppend(head + counters, sizes, rest);
    LaidAppend(head, counters, r3);
  }

  lemma ServedListLaid(ps: Listing, rest: Bytes)
    ensures PutServed(ps, rest) == Laid([Long(|ps|)] + Each(ServedFields, ps), rest)
  {
    hide PutU64, PutPair, PutList, Spelled, Laid, Each, ServedFields;
    forall p, r ensures PutPair(p, r) == Laid(ServedFields(p), r) { ServedLaid(p, r); }
    ListLaid(PutPair, ServedFields, ps, rest);
    LongExact(|ps|, PutList(PutPair, ps, rest));
    First(Long(|ps|), Each(ServedFields, ps), rest);
  }

  /** The saved file: its fields, and the checksum of their bytes. */
  lemma FileLayout(t: Tables, ps: Listing)
    requires Countable(t)
    ensures var body := Laid(FileFields(t, ps), []); Save(t, ps) == body + Sha256Spec.Digest(body)
  {
    hide PutHeader, PutServed, PutRequest, PutAttempt, PutBatch, PutList, Laid, Each;
    hide RequestFields, AttemptFields, BatchFields, ServedFields, Sha256Spec.Digest;
    var c := t.counters;
    var head := [Word(0x46435254), Word(1)]
                + [Long(c.epoch), Long(c.nextRequest), Long(c.nextBatch), Long(c.nextAttempt), Long(c.nextGeneration)]
                + [Long(|t.requests|), Long(|t.attempts|), Long(|t.batches|)];
    var rs, xs, bs := Each(RequestFields, t.requests), Each(AttemptFields, t.attempts), Each(BatchFields, t.batches);
    var served := [Long(|ps|)] + Each(ServedFields, ps);
    var r4 := PutServed(ps, []);
    var r3 := PutList(PutBatch, t.batches, r4);
    var r2 := PutList(PutAttempt, t.attempts, r3);
    var r1 := PutList(PutRequest, t.requests, r2);
    TablesLaid(t, r4);
    ServedListLaid(ps, []);
    HeaderLaid(HeaderOf(t), r1);
    LaidAppend(head + rs + xs + bs, served, []);
    LaidAppend(head + rs + xs, bs, r4);
    LaidAppend(head + rs, xs, r3);
    LaidAppend(head, rs, r2);
    assert head + rs + xs + bs + served == FileFields(t, ps);
  }

  lemma TablesLaid(t: Tables, rest: Bytes)
    ensures var r3 := PutList(PutBatch, t.batches, rest);
            var r2 := PutList(PutAttempt, t.attempts, r3);
            && r3 == Laid(Each(BatchFields, t.batches), rest) && r2 == Laid(Each(AttemptFields, t.attempts), r3)
            && PutList(PutRequest, t.requests, r2) == Laid(Each(RequestFields, t.requests), r2)
  {
    hide PutRequest, PutAttempt, PutBatch, PutList, Laid, Each, RequestFields, AttemptFields, BatchFields;
    forall x, r ensures PutBatch(x, r) == Laid(BatchFields(x), r) { BatchLaid(x, r); }
    forall x, r ensures PutAttempt(x, r) == Laid(AttemptFields(x), r) { AttemptLaid(x, r); }
    forall x, r ensures PutRequest(x, r) == Laid(RequestFields(x), r) { RequestLaid(x, r); }
    var r3 := PutList(PutBatch, t.batches, rest);
    var r2 := PutList(PutAttempt, t.attempts, r3);
    ListLaid(PutBatch, BatchFields, t.batches, rest);
    ListLaid(PutAttempt, AttemptFields, t.attempts, r3);
    ListLaid(PutRequest, RequestFields, t.requests, r2);
  }
}
