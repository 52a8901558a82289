/** The policy bundle a fabric is configured with, and the arithmetic of its
    budgets and deadlines. */
module Policy {
  import opened Types

  /** INT64_MAX, the "no deadline" and "no limit on waiting" value. */
  const NO_DEADLINE: int := 0x7fff_ffff_ffff_ffff

  /** Hard per-batch limits; zero means unbounded. */
  datatype Budget = Budget(
    maxRequests: U32, maxInput: U64, maxOutput: U64, maxWork: U64, maxMemory: U64)

  datatype FairnessPolicy = FairnessPolicy(
    enabled: bool, weights: map<U64, U32>, maxOutstanding: U32,
    maxContribution: U32, defaultWeight: U32)

  datatype BatchPolicy = BatchPolicy(
    budget: Budget, globalMaxWait: int, minimumPreferred: U32,
    classWait: map<U8, int>, sealSolo: bool, fairness: FairnessPolicy,
    mergeEnabled: bool, maxMerges: nat, retryEnabled: bool, maxAttempts: nat)

  predicate HasDeadline(d: int) { d > 0 }

  predicate Expired(d: int, now: int) { HasDeadline(d) && now >= d }

  function Remaining(d: int, now: int): int {
    if !HasDeadline(d) then NO_DEADLINE
    else if d - now < 0 then 0 else d - now
  }

  const ZERO := Accum(0, 0, 0, 0, 0)

  /** BatchBudget::allows_add. The count is added in 64 bits; the other four
      sums wrap. */
  predicate AllowsAdd(b: Budget, cur: Accum, add: Accum) {
    && (b.maxRequests != 0 ==> cur.count + add.count <= b.maxRequests)
    && (b.maxInput != 0 ==> Add64(cur.input, add.input) <= b.maxInput)
    && (b.maxOutput != 0 ==> Add64(cur.output, add.output) <= b.maxOutput)
    && (b.maxWork != 0 ==> Add64(cur.work, add.work) <= b.maxWork)
    && (b.maxMemory != 0 ==> Add64(cur.memory, add.memory) <= b.maxMemory)
  }

  /** What a request of this size can never fit: the test made at submission. */
  predicate Oversized(b: Budget, m: Metadata) {
    || (b.maxInput != 0 && m.input > b.maxInput)
    || (b.maxOutput != 0 && m.output > b.maxOutput)
    || (b.maxWork != 0 && m.work > b.maxWork)
    || (b.maxMemory != 0 && m.memory > b.maxMemory)
  }

  /** The size is within the limit, or beyond it by so much that the sum with an
      admitted amount can wrap around and look small. */
  predicate WrapsPast(limit: U64, x: U64) { limit != 0 && x > limit ==> limit + x >= 0x1_0000_0000_0000_0000 }

  /** A size that never fits but that the wrapping test can let in beside another
      member. */
  predicate Slips(b: Budget, m: Metadata) {
    && Oversized(b, m) && b.maxRequests != 1
    && WrapsPast(b.maxInput, m.input) && WrapsPast(b.maxOutput, m.output)
    && WrapsPast(b.maxWork, m.work) && WrapsPast(b.maxMemory, m.memory)
  }

  function Min(a: int, b: int): int { if a <= b then a else b }
}
