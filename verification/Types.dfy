/** Fixed-width integers, byte strings and the records that the scheduler, the
    wire protocol and the persisted state have in common. Enumerations that
    travel as one byte are kept as the byte itself, because the readers cast any
    byte to the enumeration. */
module Types {

  const TWO64: int := 0x1_0000_0000_0000_0000

  type U8 = x: int | 0 <= x < 0x100
  type U32 = x: int | 0 <= x < 0x1_0000_0000
  type U64 = x: int | 0 <= x < 0x1_0000_0000_0000_0000
  type I64 = x: int | -0x8000_0000_0000_0000 <= x < 0x8000_0000_0000_0000

  type Bytes = seq<U8>

  /** Request, attempt, batch, worker, boot, generation and epoch numbers. The
      scheduler draws them from counters; the byte layer stores eight bytes. */
  type Id = nat

  /** The SHA-256 digest that stands for a compatibility tuple. */
  type Key = Bytes

  datatype Option<+T> = None | Some(value: T) {
    predicate IsFailure() { None? }
    function PropagateFailure<U>(): Option<U> requires None? { None }
    function Extract(): T requires Some? { value }
  }

  /** Unsigned 64-bit addition, as `+=` on std::uint64_t. */
  function Add64(a: U64, b: U64): U64 {
    if a + b < 0x1_0000_0000_0000_0000 then a + b else a + b - 0x1_0000_0000_0000_0000
  }

  /** Unsigned 32-bit addition. */
  function Add32(a: U32, b: U32): U32 {
    if a + b < 0x1_0000_0000 then a + b else a + b - 0x1_0000_0000
  }

  datatype Device = Device(backend: U8, major: U32, minor: U32, minMemory: U64)

  datatype Descriptor = Descriptor(
    model: Bytes, revision: Bytes, adapter: Bytes, tokenizer: Bytes,
    phase: U8, dtype: U8, backend: U8, mode: U8, device: Device,
    shape: Bytes, sampling: Bytes, extensions: seq<Bytes>)

  datatype Metadata = Metadata(
    tenant: U64, session: U64, sequence: U64, descriptor: Descriptor,
    input: U64, output: U64, work: U64, memory: U64,
    deadline: I64, latency: U8, priority: U8, payload: Bytes)

  /** Running resource totals of a batch. */
  datatype Accum = Accum(count: U32, input: U64, output: U64, work: U64, memory: U64)

  datatype MemberWork = MemberWork(
    request: Id, attempt: Id, work: U64, input: U64, output: U64, payload: Bytes)

  datatype Execution = Execution(
    batch: Id, generation: Id, epoch: Id, worker: Id,
    descriptor: Descriptor, members: seq<MemberWork>)

  datatype MemberCompletion = MemberCompletion(
    request: Id, attempt: Id, status: U8, result: Bytes, errorCode: U32, errorMessage: Bytes)

  /** What an executor returns for one member. */
  datatype MemberResult = MemberResult(request: Id, attempt: Id, output: Bytes)

  datatype Completion = Completion(
    worker: Id, boot: Id, epoch: Id, generation: Id, batch: Id,
    members: seq<MemberCompletion>)

  datatype Capability = Capability(
    worker: Id, backend: U8, device: Device, maxBatch: U32, maxTokens: U64,
    maxWork: U64, maxMemory: U64, cancellation: bool)
}
