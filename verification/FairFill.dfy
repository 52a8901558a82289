/** What one fill guarantees: the tenants' shares, the order within a tenant, and
    that nothing admissible is left. */
module FairFill {
  import opened Types
  import opened Policy
  import opened Lists
  import opened Scheduler
  import opened Totals
  import opened Wide
  import opened Fairness
  import opened Placement
  import opened Core
  import opened Invariant
  import opened Filling
  import opened Choice
  import Trials
  import Ledger

  // ---- the admissible set only shrinks ----

  /** A limit at which no wrapped sum hides an earlier excess: small enough for exact
      sums, or so large that it excludes nothing. */
  predicate CalmLimit(limit: U64) { limit < 0x8000_0000_0000_0000 || limit == 0xffff_ffff_ffff_ffff }

  predicate CalmBudget(b: Budget) {
    || b.maxRequests == 1 || b.maxRequests == 2
    || (CalmLimit(b.maxInput) && CalmLimit(b.maxOutput) && CalmLimit(b.maxWork) && CalmLimit(b.maxMemory))
  }

  /** Beside `q` alone `c` does not pass the test, beside `q` and `x` it does. */
  predicate Grows(b: Budget, q: Metadata, x: Metadata, c: Metadata) {
    && !Oversized(b, q) && !Oversized(b, x) && !Oversized(b, c)
    && AllowsAdd(b, ZERO, Load(q)) && AllowsAdd(b, Load(q), Load(x))
    && AllowsAdd(b, Plus(Load(q), Load(x)), Load(c)) && !AllowsAdd(b, Load(q), Load(c))
  }

  function Heavy(limit: U64): U64 { if CalmLimit(limit) then 0 else limit }

  function Relief(limit: U64): U64 { if CalmLimit(limit) then 0 else 0x1_0000_0000_0000_0000 - limit }

  function Straw(limit: U64): U64 { if CalmLimit(limit) then 0 else 1 }

  lemma DimensionGrows(limit: U64)
    ensures Fits(limit, Heavy(limit)) && Fits(limit, Relief(limit)) && Fits(limit, Straw(limit))
    ensures Passes(limit, 0, Heavy(limit)) && Passes(limit, Heavy(limit), Relief(limit))
    ensures Passes(limit, Add64(Heavy(limit), Relief(limit)), Straw(limit))
    ensures !CalmLimit(limit) ==> !Passes(limit, Heavy(limit), Straw(limit))
  {
  }

  lemma DimensionShrinks(limit: U64, q: U64, x: U64, c: U64)
    requires CalmLimit(limit) && Fits(limit, q) && Fits(limit, x) && Fits(limit, c)
    requires Passes(limit, q, x) && Passes(limit, Add64(q, x), c)
    ensures Passes(limit, q, c)
  {
  }

  /** Exactly the budgets under which placing one member can let another in. */
  lemma GrowthExact(b: Budget)
    ensures !CalmBudget(b) <==> exists q, x, c :: Grows(b, q, x, c)
  {
    hide CalmLimit, Heavy, Relief, Straw, Add64, Grows;
    if !CalmBudget(b) {
      var d := Metadata(0, 0, 0, NO_DESCRIPTOR, 0, 0, 0, 0, 0, 0, 0, []);
      var q := d.(input := Heavy(b.maxInput), output := Heavy(b.maxOutput), work := Heavy(b.maxWork), memory := Heavy(b.maxMemory));
      var x := d.(input := Relief(b.maxInput), output := Relief(b.maxOutput), work := Relief(b.maxWork), memory := Relief(b.maxMemory));
      var c := d.(input := Straw(b.maxInput), output := Straw(b.maxOutput), work := Straw(b.maxWork), memory := Straw(b.maxMemory));
      DimensionGrows(b.maxInput);
      DimensionGrows(b.maxOutput);
      DimensionGrows(b.maxWork);
      DimensionGrows(b.maxMemory);
      GrowsByParts(b, q, x, c);
    }
    forall q, x, c | Grows(b, q, x, c) ensures !CalmBudget(b) { GrownIsNotCalm(b, q, x, c); }
  }

  lemma GrowsByParts(b: Budget, q: Metadata, x: Metadata, c: Metadata)
    requires b.maxRequests != 1 && b.maxRequests != 2
    requires Fits(b.maxInput, q.input) && Fits(b.maxInput, x.input) && Fits(b.maxInput, c.input)
    requires Fits(b.maxOutput, q.output) && Fits(b.maxOutput, x.output) && Fits(b.maxOutput, c.output)
    requires Fits(b.maxWork, q.work) && Fits(b.maxWork, x.work) && Fits(b.maxWork, c.work)
    requires Fits(b.maxMemory, q.memory) && Fits(b.maxMemory, x.memory) && Fits(b.maxMemory, c.memory)
    requires Passes(b.maxInput, 0, q.input) && Passes(b.maxInput, q.input, x.input) && Passes(b.maxInput, Add64(q.input, x.input), c.input)
    requires Passes(b.maxOutput, 0, q.output) && Passes(b.maxOutput, q.output, x.output) && Passes(b.maxOutput, Add64(q.output, x.output), c.output)
    requires Passes(b.maxWork, 0, q.work) && Passes(b.maxWork, q.work, x.work) && Passes(b.maxWork, Add64(q.work, x.work), c.work)
    requires Passes(b.maxMemory, 0, q.memory) && Passes(b.maxMemory, q.memory, x.memory) && Passes(b.maxMemory, Add64(q.memory, x.memory), c.memory)
    requires !Passes(b.maxInput, q.input, c.input) || !Passes(b.maxOutput, q.output, c.output)
             || !Passes(b.maxWork, q.work, c.work) || !Passes(b.maxMemory, q.memory, c.memory)
    ensures Grows(b, q, x, c)
  {
    hide Add64;
  }

  lemma GrownIsNotCalm(b: Budget, q: Metadata, x: Metadata, c: Metadata)
    requires Grows(b, q, x, c)
    ensures !CalmBudget(b)
  {
    hide CalmLimit, Add64;
    if CalmBudget(b) && b.maxRequests != 1 && b.maxRequests != 2 {
      DimensionShrinks(b.maxInput, q.input, x.input, c.input);
      DimensionShrinks(b.maxOutput, q.output, x.output, c.output);
      DimensionShrinks(b.maxWork, q.work, x.work, c.work);
      DimensionShrinks(b.maxMemory, q.memory, x.memory, c.memory);
    }
  }

  lemma CountTenantOther(rs: Requests, rs': Requests, members: seq<Id>, r: Id, t: U64)
    requires SameMetas(rs, rs') && rs'.Keys == rs.Keys && r in rs && rs[r].meta.tenant != t
    ensures CountTenant(rs', members + [r], t) == CountTenant(rs, members, t)
  {
    var ms := members + [r];
    assert ms[..|ms| - 1] == members;
    CountTenantFrame(rs, rs', members, t);
  }

  lemma {:induction false} CountTenantFrame(rs: Requests, rs': Requests, members: seq<Id>, t: U64)
    requires SameMetas(rs, rs') && rs'.Keys == rs.Keys
    ensures CountTenant(rs, members, t) == CountTenant(rs', members, t)
  {
    if members != [] { CountTenantFrame(rs, rs', members[..|members| - 1], t); }
  }

  /** The room that one dimension leaves. */
  lemma RoomWithout(limit: U64, u: nat, x: U64, c: U64)
    requires CalmLimit(limit) && Held(limit, u) && Held(limit, u + x + c)
    ensures Passes(limit, Wrap64(u), c)
  {
  }

  /** If it fits beside one more member it fits without. */
  lemma FitsWithout(b: Budget, u: Amount, x: Metadata, c: Metadata)
    requires CalmBudget(b) && HeldAll(b, u) && (u.count == 0 ==> u == NOTHING) && !Slips(b, x) && !Slips(b, c)
    requires AllowsAdd(b, Wrap(u), Load(x)) && AllowsAdd(b, Wrap(Sum(u, Size(x))), Load(c))
    ensures AllowsAdd(b, Wrap(u), Load(c))
  {
    HeldGrow(b, u, x);
    HeldGrow(b, Sum(u, Size(x)), c);
    hide CalmLimit, Wrap64, Slips, Oversized;
    if b.maxRequests == 1 || b.maxRequests == 2 {
      assert u.count == 0;
      FittingEntersEmpty(b, c);
    } else {
      RoomWithout(b.maxInput, u.input, x.input, c.input);
      RoomWithout(b.maxOutput, u.output, x.output, c.output);
      RoomWithout(b.maxWork, u.work, x.work, c.work);
      RoomWithout(b.maxMemory, u.memory, x.memory, c.memory);
    }
  }

  lemma FittingEntersEmpty(b: Budget, m: Metadata)
    requires !Oversized(b, m)
    ensures AllowsAdd(b, Wrap(NOTHING), Load(m))
  {
  }

  lemma PlaceAccum(p: BatchPolicy, s: State, bid: Id, key: Key, pick: Id)
    requires WideInv(p, s) && bid in s.batches && s.batches[bid].key == key && Candidate(p, s.requests, key, pick)
    requires AllowsAdd(p.budget, s.batches[bid].accum, Load(s.requests[pick].meta))
    ensures s.batches[bid].accum == Wrap(Usage(s.requests, s.batches[bid].members))
    ensures Place(s, bid, key, pick).batches[bid].accum
            == Wrap(Sum(Usage(s.requests, s.batches[bid].members), Size(s.requests[pick].meta)))
  {
    hide Keyed, IndexKnown, FormingKnown, IndexRemove, AllowsAdd, Within, HeldAll, Screened, Slips, NoteWork, Labelled;
    var s' := Place(s, bid, key, pick);
    assert Sound(p, s.requests, s.batches[bid]);
    GrownLabelled(s.requests, s.batches[bid], pick);
    SoundGrow(p, s.requests, s.batches[bid], pick, s'.batches[bid]);
    UsageAppend(s.requests, s.batches[bid].members, pick);
  }

  lemma UsageHeld(p: BatchPolicy, s: State, bid: Id)
    requires WideInv(p, s) && Screened(p, s.requests) && bid in s.batches
    ensures var u := Usage(s.requests, s.batches[bid].members);
            HeldAll(p.budget, u) && (u.count == 0 ==> u == NOTHING)
  {
    hide Keyed, IndexKnown, FormingKnown, HeldAll, Screened, Slips;
    var b := s.batches[bid];
    assert Sound(p, s.requests, b);
    forall m | m in b.members ensures m in s.requests { assert Candidate(p, s.requests, b.key, m); }
    UsageCount(s.requests, b.members);
    EmptyUsage(s.requests, b.members);
  }

  /** What admissibility asks apart from the budget. */
  predicate Eligible(p: BatchPolicy, s: State, bid: Id, r: Id, now: int)
    requires bid in s.batches && r in s.requests
  {
    && WaitingState(s.requests[r].state) && !Policy.Expired(s.requests[r].meta.deadline, now)
    && TenantAllowed(p, s, bid, s.requests[r].meta.tenant)
  }

  predicate TenantAllowed(p: BatchPolicy, s: State, bid: Id, t: U64)
    requires bid in s.batches
  {
    && !(p.fairness.enabled && AtCap(p.fairness, s.outstanding, t))
    && (p.fairness.maxContribution != 0 ==>
          CountTenant(s.requests, s.batches[bid].members, t) % 0x1_0000_0000 < p.fairness.maxContribution)
  }

  lemma AdmissibleSplit(p: BatchPolicy, s: State, bid: Id, r: Id, now: int)
    requires bid in s.batches
    ensures Admissible(p, s, bid, r, now)
            <==> r in s.requests && Eligible(p, s, bid, r, now) && AllowsAdd(p.budget, s.batches[bid].accum, Load(s.requests[r].meta))
  {
    hide AllowsAdd, CountTenant, AtCap;
  }

  /** Placing changes nothing for other tenants, and its own tenant was allowed. */
  lemma TenantAllowedBefore(p: BatchPolicy, s: State, bid: Id, key: Key, pick: Id, t: U64)
    requires bid in s.batches && pick in s.requests && TenantAllowed(p, s, bid, s.requests[pick].meta.tenant)
    requires TenantAllowed(p, Place(s, bid, key, pick), bid, t)
    ensures TenantAllowed(p, s, bid, t)
  {
    hide IndexRemove, CountTenant, Add64, Add32;
    var s' := Place(s, bid, key, pick);
    if t != s.requests[pick].meta.tenant {
      assert SameMetas(s.requests, s'.requests);
      CountTenantOther(s.requests, s'.requests, s.batches[bid].members, pick, t);
    }
  }

  /** Placing one candidate makes no other admissible that was not. No counter need
      be far from wrapping: the caps bind per tenant, and the tenant that is served
      was under its cap. */
  lemma AdmissibleShrinks(p: BatchPolicy, s: State, bid: Id, key: Key, pick: Id, c: Id, now: int)
    requires CalmBudget(p.budget) && bid in s.batches && s.batches[bid].key == key && c != pick
    requires Candidate(p, s.requests, key, pick) && Candidate(p, s.requests, key, c)
    requires Admissible(p, s, bid, pick, now) && Admissible(p, Place(s, bid, key, pick), bid, c, now)
    requires Screened(p, s.requests) && WideInv(p, s)
    ensures Admissible(p, s, bid, c, now)
  {
    hide WideInv, Place, AllowsAdd, Slips, Admissible, TenantAllowed, HeldAll, CalmBudget, Usage;
    var s', u := Place(s, bid, key, pick), Usage(s.requests, s.batches[bid].members);
    AdmissibleSplit(p, s, bid, pick, now);
    AdmissibleSplit(p, s', bid, c, now);
    AdmissibleSplit(p, s, bid, c, now);
    PlaceKeeps(s, bid, key, pick);
    PlaceOther(s, bid, key, pick, c);
    TenantAllowedBefore(p, s, bid, key, pick, s.requests[c].meta.tenant);
    PlaceAccum(p, s, bid, key, pick);
    UsageHeld(p, s, bid);
    FitsWithout(p.budget, u, s.requests[pick].meta, s.requests[c].meta);
  }

  lemma PlaceOther(s: State, bid: Id, key: Key, pick: Id, c: Id)
    requires bid in s.batches && pick in s.requests && c in s.requests && c != pick
    ensures Place(s, bid, key, pick).requests[c] == s.requests[c]
  {
    hide IndexRemove, NoteWork;
  }

  // ---- the picks of one fill ----

  ghost function Picks(p: BatchPolicy, s: State, bid: Id, key: Key, cands: seq<Id>, now: int): seq<Id>
    requires bid in s.batches
    decreases |cands|
  {
    var pool := Pool(p, s, bid, cands, now);
    if pool == [] then [] else
    var pick := Pick(p, s, pool);
    [pick] + Picks(p, Place(s, bid, key, pick), bid, key, Without(cands, pick), now)
  }

  lemma PicksStep(p: BatchPolicy, s: State, bid: Id, key: Key, cands: seq<Id>, now: int)
    requires bid in s.batches
    ensures var pool := Pool(p, s, bid, cands, now);
            && (forall c :: c in pool ==> c in s.requests)
            && (pool == [] ==> Picks(p, s, bid, key, cands, now) == [])
            && (pool != [] ==> var pick := Pick(p, s, pool);
                  Picks(p, s, bid, key, cands, now)
                  == [pick] + Picks(p, Place(s, bid, key, pick), bid, key, Without(cands, pick), now))
  {
    hide Place, Pick;
  }

  /** The state and the candidates after the first k picks. */
  ghost function Midway(p: BatchPolicy, s: State, bid: Id, key: Key, cands: seq<Id>, now: int, k: nat): (r: (State, seq<Id>))
    requires bid in s.batches && k <= |Picks(p, s, bid, key, cands, now)|
    ensures bid in r.0.batches
    decreases |cands|
  {
    if k == 0 then (s, cands) else
    var pick := Pick(p, s, Pool(p, s, bid, cands, now));
    Midway(p, Place(s, bid, key, pick), bid, key, Without(cands, pick), now, k - 1)
  }

  lemma MidwayStep(p: BatchPolicy, s: State, bid: Id, key: Key, cands: seq<Id>, now: int, k: nat)
    requires bid in s.batches && k <= |Picks(p, s, bid, key, cands, now)|
    ensures k == 0 ==> Midway(p, s, bid, key, cands, now, k) == (s, cands)
    ensures k > 0 ==> var pool := Pool(p, s, bid, cands, now);
              && pool != [] && (forall c :: c in pool ==> c in s.requests)
              && var pick := Pick(p, s, pool);
                 && k - 1 <= |Picks(p, Place(s, bid, key, pick), bid, key, Without(cands, pick), now)|
                 && Midway(p, s, bid, key, cands, now, k)
                    == Midway(p, Place(s, bid, key, pick), bid, key, Without(cands, pick), now, k - 1)
  {
    hide Place, Pick, Picks, Pool;
    PicksStep(p, s, bid, key, cands, now);
  }

  /** A fill of a sound batch with candidates of its key, under a budget at which
      nothing admitted earlier is hidden. */
  ghost predicate CalmFill(p: BatchPolicy, s: State, bid: Id, key: Key, cands: seq<Id>) {
    && CalmBudget(p.budget) && WideInv(p, s) && Screened(p, s.requests) && bid in s.batches && s.batches[bid].key == key
    && forall c :: c in cands ==> Candidate(p, s.requests, key, c)
  }

  lemma CalmPlace(p: BatchPolicy, s: State, bid: Id, key: Key, cands: seq<Id>, pick: Id, now: int)
    requires CalmFill(p, s, bid, key, cands) && pick in cands && Admissible(p, s, bid, pick, now)
    ensures CalmFill(p, Place(s, bid, key, pick), bid, key, Without(cands, pick))
    ensures forall c :: c in cands && c != pick && Admissible(p, Place(s, bid, key, pick), bid, c, now) ==> Admissible(p, s, bid, c, now)
  {
    hide WideInv, IndexRemove, Slips, Admissible, CalmBudget, Screened, NoteWork;
    var s' := Place(s, bid, key, pick);
    AdmissibleParts(p, s, bid, pick, now);
    PlaceWide(p, s, bid, key, pick);
    ScreenedFrame(p, s.requests, s'.requests);
    forall c | c in cands && c != pick && Admissible(p, s', bid, c, now)
      ensures Admissible(p, s, bid, c, now)
    {
      AdmissibleShrinks(p, s, bid, key, pick, c, now);
    }
  }

  lemma PoolKnown(p: BatchPolicy, s: State, bid: Id, cands: seq<Id>, now: int)
    requires bid in s.batches
    ensures forall c :: c in Pool(p, s, bid, cands, now) ==> c in s.requests
  {
  }

  /** Everything picked later was admissible from the start. */
  lemma {:induction false} PicksAdmissible(p: BatchPolicy, s: State, bid: Id, key: Key, cands: seq<Id>, now: int, x: Id)
    requires CalmFill(p, s, bid, key, cands) && x in Picks(p, s, bid, key, cands, now)
    ensures x in cands && Admissible(p, s, bid, x, now)
    decreases |cands|
  {
    hide Admissible, Place, CalmFill;
    CalmKnown(p, s, bid, key, cands);
    var pool := Pool(p, s, bid, cands, now);
    PoolKnown(p, s, bid, cands, now);
    var pick := Pick(p, s, pool);
    if x != pick {
      CalmPlace(p, s, bid, key, cands, pick, now);
      PicksAdmissible(p, Place(s, bid, key, pick), bid, key, Without(cands, pick), now, x);
    }
  }

  lemma CalmKnown(p: BatchPolicy, s: State, bid: Id, key: Key, cands: seq<Id>)
    requires CalmFill(p, s, bid, key, cands)
    ensures bid in s.batches
  {
  }

  /** The picks are exactly what the fill appends to the batch, and the state after
      all of them is the result of the fill. */
  lemma {:induction false} FillAddsPicks(p: BatchPolicy, s: State, bid: Id, key: Key, cands: seq<Id>, now: int)
    requires bid in s.batches
    ensures var ps := Picks(p, s, bid, key, cands, now);
            && Fill(p, s, bid, key, cands, now).batches[bid].members == s.batches[bid].members + ps
            && Midway(p, s, bid, key, cands, now, |ps|).0 == Fill(p, s, bid, key, cands, now)
    decreases |cands|
  {
    hide Pick, Admissible, Place, Pool, Picks;
    PicksStep(p, s, bid, key, cands, now);
    var pool := Pool(p, s, bid, cands, now);
    if pool != [] {
      var pick := Pick(p, s, pool);
      FillAddsPicks(p, Place(s, bid, key, pick), bid, key, Without(cands, pick), now);
      PlaceAppends(s, bid, key, pick);
    }
  }

  lemma PlaceAppends(s: State, bid: Id, key: Key, pick: Id)
    requires bid in s.batches && pick in s.requests
    ensures Place(s, bid, key, pick).batches[bid].members == s.batches[bid].members + [pick]
  {
    hide IndexRemove, NoteWork;
  }

  // ---- order within a tenant ----

  lemma PlaceKeeps(s: State, bid: Id, key: Key, pick: Id)
    requires bid in s.batches && pick in s.requests
    ensures var rs' := Place(s, bid, key, pick).requests;
            forall x :: x in s.requests ==> rs'[x].meta == s.requests[x].meta && rs'[x].submitted == s.requests[x].submitted
  {
    hide IndexRemove, NoteWork;
  }

  /** The members one fill adds for a tenant come in strictly increasing order of
      arrival, request numbers breaking ties. */
  lemma {:induction false} TenantOrder(p: BatchPolicy, s: State, bid: Id, key: Key, cands: seq<Id>, now: int, i: nat, j: nat)
    requires CalmFill(p, s, bid, key, cands) && i < j < |Picks(p, s, bid, key, cands, now)|
    ensures var ps := Picks(p, s, bid, key, cands, now);
            && ps[i] in s.requests && ps[j] in s.requests
            && (s.requests[ps[i]].meta.tenant == s.requests[ps[j]].meta.tenant ==> Earlier(s.requests, ps[i], ps[j]))
    decreases |cands|
  {
    hide Admissible, CalmFill, Place, Prefer, Picks, Pool, Pick;
    CalmKnown(p, s, bid, key, cands);
    PicksStep(p, s, bid, key, cands, now);
    var ps, pool := Picks(p, s, bid, key, cands, now), Pool(p, s, bid, cands, now);
    var pick := Pick(p, s, pool);
    var s1, rest := Place(s, bid, key, pick), Without(cands, pick);
    CalmPlace(p, s, bid, key, cands, pick, now);
    if i == 0 {
      var y := ps[j];
      assert y in Picks(p, s1, bid, key, rest, now);
      PicksAdmissible(p, s1, bid, key, rest, now, y);
      PickIsFirst(p, s, pool, y);
    } else {
      TenantOrder(p, s1, bid, key, rest, now, i - 1, j - 1);
      PlaceKeeps(s, bid, key, pick);
    }
  }

  // ---- the lag bound ----

  /** Tenant i is at most `bound` of one request ahead of every tenant that still
      has an admissible candidate. */
  ghost predicate Lag(p: BatchPolicy, s: State, bid: Id, cands: seq<Id>, now: int, picked: set<U64>, bound: nat)
    requires bid in s.batches
  {
    forall i, c :: i in picked && c in cands && Admissible(p, s, bid, c, now) ==>
      Ratio(p.fairness, s.served, i) - Ratio(p.fairness, s.served, s.requests[c].meta.tenant)
      <= bound as real / Divisor(p.fairness, i) as real
  }

  lemma RatioStep(s: nat, work: nat, bound: nat, d: nat)
    requires d > 0 && work <= bound
    ensures (s + work) as real / d as real == s as real / d as real + work as real / d as real
    ensures work as real / d as real <= bound as real / d as real && 0.0 <= work as real / d as real
  {
    assert (s + work) as real == s as real + work as real;
    DivAdd(s as real, work as real, d as real);
    DivLeq(work as real, bound as real, d as real);
    DivLeq(0.0, work as real, d as real);
  }

  lemma DivAdd(x: real, y: real, d: real)
    requires d > 0.0
    ensures (x + y) / d == x / d + y / d
  {
    var q, r := x / d, y / d;
    assert q * d == x && r * d == y;
    assert (q + r) * d == x + y;
  }

  lemma DivLeq(x: real, y: real, d: real)
    requires d > 0.0 && x <= y
    ensures x / d <= y / d
  {
    var q, r := x / d, y / d;
    assert q * d == x && r * d == y;
    assert (r - q) * d >= 0.0;
  }

  predicate WorkAtMost(rs: Requests, cands: seq<Id>, bound: nat) {
    forall x :: x in cands && x in rs ==> rs[x].meta.work <= bound
  }

  lemma NoteGet(m: map<U64, U64>, t: U64, work: U64, u: U64)
    requires Get(m, t) + work < 0x1_0000_0000_0000_0000
    ensures Get(NoteWork(m, t, work), u) == Get(m, u) + if u == t then work else 0
  {
  }

  /** The service counter that this placement raises does not wrap. */
  predicate RoomFor(s: State, pick: Id) {
    pick in s.requests && Get(s.served, s.requests[pick].meta.tenant) + s.requests[pick].meta.work < 0x1_0000_0000_0000_0000
  }

  /** No service counter wraps at any of the first k placements. */
  ghost predicate Steady(p: BatchPolicy, s: State, bid: Id, key: Key, cands: seq<Id>, now: int, k: nat)
    requires bid in s.batches && k <= |Picks(p, s, bid, key, cands, now)|
    decreases |cands|
  {
    k == 0 ||
    var pick := Pick(p, s, Pool(p, s, bid, cands, now));
    RoomFor(s, pick) && Steady(p, Place(s, bid, key, pick), bid, key, Without(cands, pick), now, k - 1)
  }

  lemma SteadyStep(p: BatchPolicy, s: State, bid: Id, key: Key, cands: seq<Id>, now: int, k: nat)
    requires bid in s.batches && 0 < k <= |Picks(p, s, bid, key, cands, now)| && Steady(p, s, bid, key, cands, now, k)
    ensures var pool := Pool(p, s, bid, cands, now);
            && pool != [] && (forall c :: c in pool ==> c in s.requests)
            && var pick := Pick(p, s, pool);
               && RoomFor(s, pick) && k - 1 <= |Picks(p, Place(s, bid, key, pick), bid, key, Without(cands, pick), now)|
               && Steady(p, Place(s, bid, key, pick), bid, key, Without(cands, pick), now, k - 1)
  {
    hide Place, Pick, Picks, Pool, RoomFor;
    PicksStep(p, s, bid, key, cands, now);
  }

  lemma LagPlace(p: BatchPolicy, s: State, bid: Id, key: Key, cands: seq<Id>, now: int, picked: set<U64>, bound: nat)
    requires CalmFill(p, s, bid, key, cands) && Lag(p, s, bid, cands, now, picked, bound)
    requires Pool(p, s, bid, cands, now) != [] && RoomFor(s, Pick(p, s, Pool(p, s, bid, cands, now)))
    requires WorkAtMost(s.requests, cands, bound)
    ensures var pick := Pick(p, s, Pool(p, s, bid, cands, now));
            Lag(p, Place(s, bid, key, pick), bid, Without(cands, pick), now, picked + {s.requests[pick].meta.tenant}, bound)
  {
    hide Admissible, CalmFill, Place, Divisor, Ratio, Pool, Pick, Picks, RoomFor;
    CalmKnown(p, s, bid, key, cands);
    PicksStep(p, s, bid, key, cands, now);
    var pool := Pool(p, s, bid, cands, now);
    var pick := Pick(p, s, pool);
    var s', rest, t, f := Place(s, bid, key, pick), Without(cands, pick), s.requests[pick].meta.tenant, p.fairness;
    CalmPlace(p, s, bid, key, cands, pick, now);
    PlaceKeeps(s, bid, key, pick);
    forall i, c | i in picked + {t} && c in rest && Admissible(p, s', bid, c, now)
      ensures Ratio(f, s'.served, i) - Ratio(f, s'.served, s'.requests[c].meta.tenant) <= bound as real / Divisor(f, i) as real
    {
      assert c in s'.requests by { AdmissibleParts(p, s', bid, c, now); }
      assert Admissible(p, s, bid, c, now);
      assert c in pool;
      PickIsFirst(p, s, pool, c);
      RatioPlace(p, s, bid, key, pick, bound, i);
      RatioPlace(p, s, bid, key, pick, bound, s.requests[c].meta.tenant);
    }
  }

  /** Placing raises the served tenant's ratio by its work, and no other. */
  lemma RatioPlace(p: BatchPolicy, s: State, bid: Id, key: Key, pick: Id, bound: nat, u: U64)
    requires bid in s.batches && RoomFor(s, pick) && s.requests[pick].meta.work <= bound
    ensures var f, s', m := p.fairness, Place(s, bid, key, pick), s.requests[pick].meta;
            && Ratio(f, s'.served, u) == Ratio(f, s.served, u) + (if u == m.tenant then m.work as real / Divisor(f, u) as real else 0.0)
            && 0.0 <= m.work as real / Divisor(f, u) as real <= bound as real / Divisor(f, u) as real
  {
    hide IndexRemove, NoteWork, Get, Weight;
    NoteGet(s.served, s.requests[pick].meta.tenant, s.requests[pick].meta.work, u);
    RatioStep(Get(s.served, u), s.requests[pick].meta.work, bound, Divisor(p.fairness, u));
  }

  /** The tenants served by a list of picks. */
  function TenantsOf(rs: Requests, ps: seq<Id>): set<U64> {
    set x | x in ps && x in rs :: rs[x].meta.tenant
  }

  lemma {:induction false} LagMidway(p: BatchPolicy, s: State, bid: Id, key: Key, cands: seq<Id>, now: int, picked: set<U64>, bound: nat, k: nat)
    requires CalmFill(p, s, bid, key, cands) && Lag(p, s, bid, cands, now, picked, bound) && WorkAtMost(s.requests, cands, bound)
    requires k <= |Picks(p, s, bid, key, cands, now)| && Steady(p, s, bid, key, cands, now, k)
    ensures var (s', rest) := Midway(p, s, bid, key, cands, now, k);
            Lag(p, s', bid, rest, now, picked + TenantsOf(s.requests, Picks(p, s, bid, key, cands, now)[..k]), bound)
    decreases |cands|
  {
    hide CalmFill, Lag, Place, Admissible, TenantsOf, Pool, Pick, Picks, Midway, Steady, RoomFor;
    CalmKnown(p, s, bid, key, cands);
    PicksStep(p, s, bid, key, cands, now);
    MidwayStep(p, s, bid, key, cands, now, k);
    var ps := Picks(p, s, bid, key, cands, now);
    TenantsNone(s.requests);
    if k > 0 {
      SteadyStep(p, s, bid, key, cands, now, k);
      var pick := Pick(p, s, Pool(p, s, bid, cands, now));
      var s1, rest, t := Place(s, bid, key, pick), Without(cands, pick), s.requests[pick].meta.tenant;
      LagPlace(p, s, bid, key, cands, now, picked, bound);
      CalmPlace(p, s, bid, key, cands, pick, now);
      PlaceKeeps(s, bid, key, pick);
      LagMidway(p, s1, bid, key, rest, now, picked + {t}, bound, k - 1);
      var ps1 := Picks(p, s1, bid, key, rest, now);
      assert ps[..k] == [pick] + ps1[..k - 1];
      TenantsCons(s.requests, s1.requests, pick, ps1[..k - 1]);
      assert picked + {t} + TenantsOf(s1.requests, ps1[..k - 1]) == picked + TenantsOf(s.requests, ps[..k]);
    } else {
      assert ps[..0] == [] && picked + TenantsOf(s.requests, ps[..k]) == picked;
    }
  }

  lemma TenantsNone(rs: Requests)
    ensures TenantsOf(rs, []) == {}
  {
  }

  lemma TenantsCons(rs: Requests, rs': Requests, x: Id, ps: seq<Id>)
    requires x in rs && rs'.Keys == rs.Keys && forall z :: z in rs ==> rs'[z].meta == rs[z].meta
    ensures TenantsOf(rs, [x] + ps) == {rs[x].meta.tenant} + TenantsOf(rs', ps)
  {
    var all := [x] + ps;
    forall t | t in TenantsOf(rs, all) ensures t in {rs[x].meta.tenant} + TenantsOf(rs', ps) {
      var z :| z in all && z in rs && rs[z].meta.tenant == t;
    }
    forall t | t in {rs[x].meta.tenant} + TenantsOf(rs', ps) ensures t in TenantsOf(rs, all) {
      if t == rs[x].meta.tenant { assert x in all; }
      else {
        var z :| z in ps && z in rs' && rs'[z].meta.tenant == t;
        assert z in all;
      }
    }
  }

  /** Still a candidate, and admissible. */
  predicate Contends(p: BatchPolicy, st: (State, seq<Id>), bid: Id, c: Id, now: int) {
    bid in st.0.batches && c in st.1 && Admissible(p, st.0, bid, c, now)
  }

  /** Tenant `i` is ahead of the tenant of `c` by at most `bound` over its own weight:
      with weights a and b, served(i) / a - served(c) / b is at most bound / a. */
  ghost predicate LagWithin(f: FairnessPolicy, s: State, i: U64, c: Id, bound: nat) {
    && c in s.requests
    && var t := s.requests[c].meta.tenant;
       forall a, b | Weighs(f, i, a) && Weighs(f, t, b) :: ServedBy(s.served, i) * b <= ServedBy(s.served, t) * a + bound * b
  }

  function ServedBy(served: map<U64, U64>, t: U64): nat { if t in served then served[t] else 0 }

  lemma LagInWholeNumbers(f: FairnessPolicy, s: State, i: U64, c: Id, bound: nat)
    requires c in s.requests
    requires Ratio(f, s.served, i) - Ratio(f, s.served, s.requests[c].meta.tenant) <= bound as real / Divisor(f, i) as real
    ensures LagWithin(f, s, i, c, bound)
  {
    var t := s.requests[c].meta.tenant;
    forall a, b | Weighs(f, i, a) && Weighs(f, t, b) ensures ServedBy(s.served, i) * b <= ServedBy(s.served, t) * a + bound * b {
      Rescaled(ServedBy(s.served, i), a, ServedBy(s.served, t), b, bound);
    }
  }

  lemma Rescaled(x: nat, a: nat, y: nat, b: nat, bound: nat)
    requires a > 0 && b > 0 && x as real / a as real - y as real / b as real <= bound as real / a as real
    ensures x * b <= y * a + bound * b
  {
    var u, v, w := x as real / a as real, y as real / b as real, bound as real / a as real;
    var ra, rb := a as real, b as real;
    assert x as real == u * ra && y as real == v * rb && bound as real == w * ra;
    assert (u - v - w) * (ra * rb) <= 0.0 by { NotPositive(u - v - w, ra * rb); }
    assert (x * b) as real == u * ra * rb && (y * a) as real == v * rb * ra && (bound * b) as real == w * ra * rb;
  }

  lemma NotPositive(d: real, k: real)
    requires d <= 0.0 && k > 0.0
    ensures d * k <= 0.0
  {
  }

  /** Weighted fairness of one fill: at every moment of it, a tenant already served
      in this fill is ahead of any tenant that still has an admissible candidate by
      at most one request's work over its own weight, provided that no service
      counter has wrapped at a placement made so far. */
  lemma LagBound(p: BatchPolicy, s: State, bid: Id, key: Key, cands: seq<Id>, now: int, bound: nat, k: nat, i: U64, c: Id)
    requires bid in s.batches && k <= |Picks(p, s, bid, key, cands, now)| && WorkAtMost(s.requests, cands, bound)
    requires i in TenantsOf(s.requests, Picks(p, s, bid, key, cands, now)[..k])
    requires Contends(p, Midway(p, s, bid, key, cands, now, k), bid, c, now)
    requires Steady(p, s, bid, key, cands, now, k) && CalmFill(p, s, bid, key, cands)
    ensures LagWithin(p.fairness, Midway(p, s, bid, key, cands, now, k).0, i, c, bound)
  {
    hide CalmFill, Picks, Midway, Admissible, Ratio, TenantsOf, Steady;
    CalmKnown(p, s, bid, key, cands);
    assert Lag(p, s, bid, cands, now, {}, bound);
    LagMidway(p, s, bid, key, cands, now, {}, bound, k);
    AdmissibleKnown(p, Midway(p, s, bid, key, cands, now, k).0, bid, c, now);
    LagInWholeNumbers(p.fairness, Midway(p, s, bid, key, cands, now, k).0, i, c, bound);
    assert {} + TenantsOf(s.requests, Picks(p, s, bid, key, cands, now)[..k])
        == TenantsOf(s.requests, Picks(p, s, bid, key, cands, now)[..k]);
  }

  // ---- nothing admissible is left ----

  /** The bucket holds no more than the candidates still in hand. */
  predicate InHand(s: State, key: Key, cands: seq<Id>) {
    forall c :: c in Bucket(s.index, key) ==> c in cands
  }

  lemma InHandPlace(p: BatchPolicy, s: State, bid: Id, key: Key, cands: seq<Id>, pick: Id)
    requires Inv(p, s) && InHand(s, key, cands) && bid in s.batches && pick in s.requests
    requires s.requests[pick].inWaiting && s.requests[pick].key == key
    ensures InHand(Place(s, bid, key, pick), key, Without(cands, pick))
  {
    hide WideInv, Placed, FormingExact, Ordered, Trials.TrialInv, Ledger.LedgerInv, IndexRemove, NoDup, Bounded;
    IndexRemoveOthers(s.requests, s.index, pick);
  }

  /** When the fill stops, no waiting candidate under the key could still join. */
  lemma {:induction false} FillMaximal(p: BatchPolicy, s: State, bid: Id, key: Key, cands: seq<Id>, now: int)
    requires Inv(p, s) && FormingUnder(s.batches, bid, key) && Ready(s.requests, key, cands) && InHand(s, key, cands)
    ensures var s' := Fill(p, s, bid, key, cands, now);
            forall c :: c in Bucket(s'.index, key) ==> !Admissible(p, s', bid, c, now)
    decreases |cands|
  {
    hide Inv, Place, Pick, Admissible, OnlyBatch;
    var pool := Pool(p, s, bid, cands, now);
    if pool != [] {
      PoolKnown(p, s, bid, cands, now);
      var pick := Pick(p, s, pool);
      var s1 := Place(s, bid, key, pick);
      AdmissibleParts(p, s, bid, pick, now);
      QueuedCandidate(p, s, pick);
      PlaceGood(p, s, bid, key, pick);
      PlaceReady(s, bid, key, pick, cands);
      OnlyBatchForming(s, s1, bid, key);
      InHandPlace(p, s, bid, key, cands, pick);
      FillMaximal(p, s1, bid, key, Without(cands, pick), now);
      assert Fill(p, s, bid, key, cands, now) == Fill(p, s1, bid, key, Without(cands, pick), now);
    }
  }

  lemma FillBatchMaximal(p: BatchPolicy, s: State, bid: Id, key: Key, now: int)
    requires Inv(p, s) && FormingUnder(s.batches, bid, key)
    ensures var s' := FillBatch(p, s, bid, key, now);
            forall c :: c in Bucket(s'.index, key) ==> !Admissible(p, s', bid, c, now)
  {
    hide Inv, Fill, Admissible;
    BucketReady(p, s, key);
    FillMaximal(p, s, bid, key, Bucket(s.index, key), now);
    assert FillBatch(p, s, bid, key, now) == Fill(p, s, bid, key, Bucket(s.index, key), now);
  }
}
