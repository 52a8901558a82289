/** Batch totals: the wrapping accumulators against unbounded sums. */
module Totals {
  import opened Types
  import opened Policy
  import opened Lists
  import opened Scheduler

  /** Resource use counted without bounds. */
  datatype Amount = Amount(count: nat, input: nat, output: nat, work: nat, memory: nat)

  const NOTHING := Amount(0, 0, 0, 0, 0)

  function Sum(a: Amount, b: Amount): Amount {
    Amount(a.count + b.count, a.input + b.input, a.output + b.output, a.work + b.work, a.memory + b.memory)
  }

  function Size(m: Metadata): Amount { Amount(1, m.input, m.output, m.work, m.memory) }

  /** The true resource use of a member list. */
  function Usage(rs: Requests, members: seq<Id>): Amount {
    if members == [] then NOTHING else
    var n := |members| - 1;
    if members[n] in rs then Sum(Usage(rs, members[..n]), Size(rs[members[n]].meta))
    else Usage(rs, members[..n])
  }

  /** What is left of an amount in the 32- and 64-bit fields of BatchAccum. */
  function Wrap(a: Amount): Accum {
    Accum(Wrap32(a.count), Wrap64(a.input), Wrap64(a.output), Wrap64(a.work), Wrap64(a.memory))
  }

  predicate Within(b: Budget, a: Amount) {
    && (b.maxRequests != 0 ==> a.count <= b.maxRequests)
    && (b.maxInput != 0 ==> a.input <= b.maxInput)
    && (b.maxOutput != 0 ==> a.output <= b.maxOutput)
    && (b.maxWork != 0 ==> a.work <= b.maxWork)
    && (b.maxMemory != 0 ==> a.memory <= b.maxMemory)
  }

  /** Limits small enough that two admitted amounts cannot wrap around. */
  predicate SafeLimits(b: Budget) {
    && b.maxRequests < 0x8000_0000
    && b.maxInput < 0x8000_0000_0000_0000 && b.maxOutput < 0x8000_0000_0000_0000
    && b.maxWork < 0x8000_0000_0000_0000 && b.maxMemory < 0x8000_0000_0000_0000
  }

  predicate AtMost(a: Amount, b: Amount) {
    a.count <= b.count && a.input <= b.input && a.output <= b.output && a.work <= b.work && a.memory <= b.memory
  }

  predicate AllIn(rs: Requests, members: seq<Id>) { forall m :: m in members ==> m in rs }

  /** Sizes and keys stay, and attempts are only added. */
  predicate SameMetas(rs: Requests, rs': Requests) {
    forall r :: r in rs ==>
      r in rs' && rs'[r].meta == rs[r].meta && rs'[r].key == rs[r].key && |rs[r].attempts| <= |rs'[r].attempts|
  }

  function Wrap64(n: nat): U64 { n % 0x1_0000_0000_0000_0000 }

  function Wrap32(n: nat): U32 { n % 0x1_0000_0000 }

  lemma Wrap64Add(a: nat, b: nat)
    ensures Add64(Wrap64(a), Wrap64(b)) == Wrap64(a + b)
  {
  }

  lemma Wrap32Add(a: nat, b: nat)
    ensures Add32(Wrap32(a), Wrap32(b)) == Wrap32(a + b)
  {
  }

  lemma PlusWraps(a: Amount, b: Amount)
    ensures Plus(Wrap(a), Wrap(b)) == Wrap(Sum(a, b))
  {
    Wrap32Add(a.count, b.count);
    Wrap64Add(a.input, b.input);
    Wrap64Add(a.output, b.output);
    Wrap64Add(a.work, b.work);
    Wrap64Add(a.memory, b.memory);
  }

  lemma NothingWraps()
    ensures Wrap(NOTHING) == ZERO
  {
  }

  /** Recomputing an accumulator yields the true usage, wrapped. */
  lemma {:induction false} TallyIsUsage(rs: Requests, members: seq<Id>)
    ensures Tally(rs, members) == Wrap(Usage(rs, members))
  {
    hide Wrap32, Wrap64, Plus, Sum;
    if members == [] {
      NothingWraps();
    } else {
      var n := |members| - 1;
      TallyIsUsage(rs, members[..n]);
      if members[n] in rs {
        WrapSize(rs[members[n]].meta);
        PlusWraps(Usage(rs, members[..n]), Size(rs[members[n]].meta));
      }
    }
  }

  lemma WrapSize(m: Metadata)
    ensures Wrap(Size(m)) == Load(m)
  {
  }

  lemma {:induction false} UsageFrame(rs: Requests, rs': Requests, members: seq<Id>)
    requires AllIn(rs, members) && SameMetas(rs, rs')
    ensures Usage(rs, members) == Usage(rs', members)
  {
    if members != [] {
      var n := |members| - 1;
      assert members[n] in members;
      UsageFrame(rs, rs', members[..n]);
    }
  }

  lemma {:induction false} UsageConcat(rs: Requests, a: seq<Id>, b: seq<Id>)
    ensures Usage(rs, a + b) == Sum(Usage(rs, a), Usage(rs, b))
  {
    if b == [] {
      assert a + b == a;
    } else {
      var n := |b| - 1;
      var ab := a + b;
      assert ab[..|ab| - 1] == a + b[..n] && ab[|ab| - 1] == b[n];
      UsageConcat(rs, a, b[..n]);
    }
  }

  lemma {:induction false} UsageCount(rs: Requests, members: seq<Id>)
    requires AllIn(rs, members)
    ensures Usage(rs, members).count == |members|
  {
    if members != [] {
      UsageCount(rs, members[..|members| - 1]);
    }
  }

  lemma {:induction false} UsageWithout(rs: Requests, members: seq<Id>, x: Id)
    ensures AtMost(Usage(rs, Without(members, x)), Usage(rs, members))
  {
    if members != [] {
      var h, t := [members[0]], members[1..];
      assert members == h + t;
      UsageConcat(rs, h, t);
      UsageWithout(rs, t, x);
      if members[0] != x {
        assert Without(members, x) == h + Without(t, x);
        UsageConcat(rs, h, Without(t, x));
      } else {
        assert Without(members, x) == Without(t, x);
      }
    }
  }

  // ---- limit by limit ----

  /** A limit below 2^63 is respected. */
  predicate Held(limit: U64, x: nat) { 0 < limit < 0x8000_0000_0000_0000 ==> x <= limit }

  /** Every limit that is small enough for exact sums is respected. */
  predicate HeldAll(b: Budget, a: Amount) {
    && (0 < b.maxRequests < 0x8000_0000 ==> a.count <= b.maxRequests)
    && Held(b.maxInput, a.input) && Held(b.maxOutput, a.output) && Held(b.maxWork, a.work) && Held(b.maxMemory, a.memory)
  }

  lemma HeldIsWithin(b: Budget, a: Amount)
    requires SafeLimits(b)
    ensures HeldAll(b, a) <==> Within(b, a)
  {
  }

  lemma HeldMonotone(b: Budget, small: Amount, large: Amount)
    requires AtMost(small, large) && HeldAll(b, large)
    ensures HeldAll(b, small)
  {
  }

  /** The wrapping test of one dimension. */
  predicate Passes(limit: U64, x: U64, y: U64) { limit != 0 ==> Add64(x, y) <= limit }

  lemma HeldSum(limit: U64, x: nat, y: nat)
    requires Held(limit, x) && Held(limit, y)
    requires Passes(limit, Wrap64(x), Wrap64(y)) || Passes(limit, 0, Add64(Wrap64(x), Wrap64(y)))
    ensures Held(limit, x + y)
  {
  }

  /** Two amounts that pass the merge test. */
  lemma HeldJoin(b: Budget, x: Amount, y: Amount)
    requires HeldAll(b, x) && HeldAll(b, y) && AllowsAdd(b, ZERO, Plus(Wrap(x), Wrap(y)))
    ensures HeldAll(b, Sum(x, y))
  {
    hide Held, Wrap64;
    HeldSum(b.maxInput, x.input, y.input);
    HeldSum(b.maxOutput, x.output, y.output);
    HeldSum(b.maxWork, x.work, y.work);
    HeldSum(b.maxMemory, x.memory, y.memory);
  }

  predicate Fits(limit: U64, y: U64) { limit == 0 || y <= limit }

  /** A dimension in which a size that passes the test must fit. */
  lemma NoSlip(limit: U64, x: nat, y: U64)
    requires Held(limit, x) && Passes(limit, Wrap64(x), y)
    ensures !WrapsPast(limit, y) ==> false
    ensures Fits(limit, y) ==> Held(limit, x + y)
  {
  }

  /** A size that does not slip through is admitted only where it fits. */
  lemma HeldGrow(b: Budget, u: Amount, m: Metadata)
    requires HeldAll(b, u) && (u.count == 0 ==> u == NOTHING) && !Slips(b, m) && AllowsAdd(b, Wrap(u), Load(m))
    ensures !Oversized(b, m) && HeldAll(b, Sum(u, Size(m)))
  {
    hide Wrap64, Held, WrapsPast;
    NoSlip(b.maxInput, u.input, m.input);
    NoSlip(b.maxOutput, u.output, m.output);
    NoSlip(b.maxWork, u.work, m.work);
    NoSlip(b.maxMemory, u.memory, m.memory);
    if b.maxRequests == 1 && u.count == 0 { EmptyTakesFitting(b, m); }
  }

  lemma EmptyTakesFitting(b: Budget, m: Metadata)
    ensures AllowsAdd(b, Wrap(NOTHING), Load(m)) ==> !Oversized(b, m)
  {
  }

  /** A request that fits by itself, and beside which the test lets `m` in although
      the two exceed the budget. */
  predicate Smuggles(b: Budget, q: Metadata, m: Metadata) {
    && AllowsAdd(b, ZERO, Load(q)) && AllowsAdd(b, Load(q), Load(m)) && !Within(b, Sum(Size(q), Size(m)))
  }

  /** What has to go with `m` for the sums to wrap to zero. */
  function Ballast(limit: U64, x: U64): (y: U64)
    ensures WrapsPast(limit, x) ==> Fits(limit, y) && Passes(limit, y, x)
    ensures limit != 0 && x > limit ==> y + x > limit
  {
    if limit != 0 && x > limit then 0x1_0000_0000_0000_0000 - x else 0
  }

  /** The request that smuggles `m` in. */
  function Smuggler(b: Budget, m: Metadata): Metadata {
    m.(input := Ballast(b.maxInput, m.input), output := Ballast(b.maxOutput, m.output),
       work := Ballast(b.maxWork, m.work), memory := Ballast(b.maxMemory, m.memory))
  }

  lemma SmugglerWorks(b: Budget, m: Metadata)
    requires Slips(b, m)
    ensures Smuggles(b, Smuggler(b, m), m)
  {
    hide Ballast;
  }

  /** Under safe limits `Slips` is exactly the danger: there is a request that
      smuggles `m` past the budget if and only if `m` slips. */
  lemma SlipsExactly(b: Budget, m: Metadata)
    requires SafeLimits(b)
    ensures Slips(b, m) <==> exists q :: Smuggles(b, q, m)
  {
    hide Slips, Smuggler, Smuggles;
    if Slips(b, m) { SmugglerWorks(b, m); }
    forall q | Smuggles(b, q, m) ensures Slips(b, m) { SmuggledSlips(b, q, m); }
  }

  lemma SmuggledSlips(b: Budget, q: Metadata, m: Metadata)
    requires SafeLimits(b) && Smuggles(b, q, m)
    ensures Slips(b, m)
  {
    hide Slips;
    assert Wrap(Size(q)) == Load(q);
    assert HeldAll(b, Size(q));
    if !Slips(b, m) {
      HeldGrow(b, Size(q), m);
      HeldIsWithin(b, Sum(Size(q), Size(m)));
    }
  }

  /** One wrapping dimension with a limit below 2^63. */
  lemma ExactDimension(limit: U64, x: nat, y: nat)
    requires limit < 0x8000_0000_0000_0000 && x <= limit && y <= limit
    ensures Add64(Wrap64(x), Wrap64(y)) == x + y
    ensures Add64(0, Add64(Wrap64(x), Wrap64(y))) == x + y
  {
  }

  /** Under safe limits the wrapping test of two admitted amounts is exact. */
  lemma AllowsAddExact(b: Budget, x: Amount, y: Amount)
    requires SafeLimits(b) && Within(b, x) && Within(b, y)
    ensures AllowsAdd(b, Wrap(x), Wrap(y)) <==> Within(b, Sum(x, y))
    ensures AllowsAdd(b, ZERO, Plus(Wrap(x), Wrap(y))) <==> Within(b, Sum(x, y))
  {
    if b.maxRequests != 0 { assert Wrap32(x.count) == x.count && Wrap32(y.count) == y.count; }
    if b.maxInput != 0 { ExactDimension(b.maxInput, x.input, y.input); }
    if b.maxOutput != 0 { ExactDimension(b.maxOutput, x.output, y.output); }
    if b.maxWork != 0 { ExactDimension(b.maxWork, x.work, y.work); }
    if b.maxMemory != 0 { ExactDimension(b.maxMemory, x.memory, y.memory); }
  }

  /** The bound on the limit is sharp in each wrapping dimension: exactly from
      2^63 on, two amounts within the limit pass the test although their sum
      exceeds it. */
  lemma WrapBoundIsSharp(limit: U64)
    requires limit != 0
    ensures limit >= 0x8000_0000_0000_0000 <==>
            exists x: U64, y: U64 :: x <= limit && y <= limit && Add64(x, y) <= limit && x + y > limit
  {
    if limit >= 0x8000_0000_0000_0000 {
      var x: U64, y: U64 := limit, 0x1_0000_0000_0000_0000 - limit;
      assert Add64(x, y) == 0;
    }
  }
}
