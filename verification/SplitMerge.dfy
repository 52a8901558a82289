/** Splitting a sealed batch and merging the halves again; and what a split does
    to the members' pointers. */
module SplitMerge {
  import opened Types
  import opened Policy
  import opened Lists
  import opened Scheduler
  import opened Totals
  import opened Wide
  import opened Placement

  /** The numbers of the two halves that a split of a sealed batch creates. */
  function FirstHalf(s: State): Id { s.nextBatch + 1 }

  function SecondHalf(s: State): Id { s.nextBatch }

  lemma SplitHalves(s: State, bid: Id)
    requires Numbered(s) && bid in s.batches && s.batches[bid].state.Sealed? && |s.batches[bid].members| >= 2
    ensures var (s', code) := Split(s, bid);
            var b := s.batches[bid];
            && code.Ok? && FirstHalf(s) in s'.batches && SecondHalf(s) in s'.batches && bid in s'.batches
            && s'.requests == SplitRequests(s, bid)
            && var f, c := s'.batches[FirstHalf(s)], s'.batches[SecondHalf(s)];
               && f.state.Sealed? && c.state.Sealed? && s'.batches[bid].state.Superseded?
               && f.members == b.members[..|b.members| / 2] && c.members == b.members[|b.members| / 2..]
               && f.key == b.key && c.key == b.key && f.phase == b.phase && c.phase == b.phase
               && f.accum == Tally(s'.requests, f.members) && c.accum == Tally(s'.requests, c.members)
               && s'.sealedOrder == WithoutFirst(s.sealedOrder, bid) + [FirstHalf(s)]
  {
    hide SplitRequests, Tally, Offspring, SplitRest;
  }

  lemma TallyConcat(rs: Requests, a: seq<Id>, b: seq<Id>)
    ensures Plus(Tally(rs, a), Tally(rs, b)) == Tally(rs, a + b)
  {
    hide Tally, Usage, Wrap, Plus;
    TallyIsUsage(rs, a);
    TallyIsUsage(rs, b);
    TallyIsUsage(rs, a + b);
    UsageConcat(rs, a, b);
    PlusWraps(Usage(rs, a), Usage(rs, b));
  }

  lemma TallyFrame(rs: Requests, rs': Requests, ms: seq<Id>)
    requires AllIn(rs, ms) && SameMetas(rs, rs')
    ensures Tally(rs, ms) == Tally(rs', ms)
  {
    hide Tally, Usage, Wrap;
    TallyIsUsage(rs, ms);
    TallyIsUsage(rs', ms);
    UsageFrame(rs, rs', ms);
  }

  lemma SoundTally(p: BatchPolicy, rs: Requests, b: Batch)
    requires Sound(p, rs, b)
    ensures b.accum == Tally(rs, b.members) && AllIn(rs, b.members)
  {
    hide Tally, Usage, Wrap;
    TallyIsUsage(rs, b.members);
    forall m | m in b.members ensures m in rs { assert Candidate(p, rs, b.key, m); }
  }

  /** The halves concatenate to the original list and their totals add up to the
      original totals. Merging them succeeds exactly when merging is enabled and the
      original totals passed the budget test, and then gives back the original list
      and totals. */
  lemma SplitThenMerge(p: BatchPolicy, s: State, bid: Id)
    requires WideInv(p, s) && bid in s.batches && s.batches[bid].state.Sealed? && |s.batches[bid].members| >= 2
    ensures var b, s1 := s.batches[bid], Split(s, bid).0;
            && FirstHalf(s) in s1.batches && SecondHalf(s) in s1.batches
            && var f, c := s1.batches[FirstHalf(s)], s1.batches[SecondHalf(s)];
               && f.members + c.members == b.members && Plus(f.accum, c.accum) == b.accum
               && var (s2, code) := Merge(p, s1, FirstHalf(s), SecondHalf(s));
                  && (code.Ok? <==> p.mergeEnabled && AllowsAdd(p.budget, ZERO, b.accum))
                  && (code.Ok? ==>
                        && FirstHalf(s) in s2.batches
                        && s2.batches[FirstHalf(s)].members == b.members && s2.batches[FirstHalf(s)].accum == b.accum)
  {
    hide SplitRequests, Tally, Split, Keyed, IndexKnown, FormingKnown, Sound, SameMetas, Plus, AllowsAdd, Rehome;
    var b, s1 := s.batches[bid], Split(s, bid).0;
    SplitHalves(s, bid);
    SplitRequestsSame(s, bid);
    SoundTally(p, s.requests, b);
    TallyFrame(s.requests, s1.requests, b.members);
    var f, c := s1.batches[FirstHalf(s)], s1.batches[SecondHalf(s)];
    assert f.members + c.members == b.members;
    TallyConcat(s1.requests, f.members, c.members);
    var rs := Rehome(s1.requests, c.members, FirstHalf(s));
    RehomeSame(s1.requests, c.members, FirstHalf(s));
    AllInFrame(s.requests, s1.requests, b.members);
    TallyFrame(s1.requests, rs, b.members);
  }

  /** With limits below 2^63, and nothing that slips retried, the budget test is
      implied, so that only the switch decides. */
  lemma SplitThenMergeSucceeds(p: BatchPolicy, s: State, bid: Id)
    requires bid in s.batches && s.batches[bid].state.Sealed? && |s.batches[bid].members| >= 2
    requires WideInv(p, s) && SafeLimits(p.budget) && Screened(p, s.requests)
    ensures Merge(p, Split(s, bid).0, FirstHalf(s), SecondHalf(s)).1.Ok? <==> p.mergeEnabled
  {
    hide Keyed, IndexKnown, FormingKnown, Split, Merge, Usage, Wrap, Within, HeldAll, AllowsAdd, SafeLimits, Screened, Slips;
    SplitThenMerge(p, s, bid);
    assert Sound(p, s.requests, s.batches[bid]);
    HeldIsWithin(p.budget, Usage(s.requests, s.batches[bid].members));
    WithinPasses(p.budget, Usage(s.requests, s.batches[bid].members));
  }

  lemma WithinPasses(b: Budget, x: Amount)
    requires SafeLimits(b) && Within(b, x)
    ensures AllowsAdd(b, ZERO, Wrap(x))
  {
  }

  lemma AllInFrame(rs: Requests, rs': Requests, ms: seq<Id>)
    requires AllIn(rs, ms) && SameMetas(rs, rs')
    ensures AllIn(rs', ms)
  {
  }

  /** All members of the batch `f` name another batch, which is superseded. */
  predicate PointsAway(s: State, f: Id, from: Id) {
    && f in s.batches && from in s.batches && s.batches[from].state.Superseded? && f != from
    && forall m :: m in s.batches[f].members ==> m in s.requests && s.requests[m].batch == from
  }

  lemma RehomedTo(rs: Requests, ms: seq<Id>, to: Id, m: Id)
    requires m in ms && m in rs
    ensures m in Rehome(rs, ms, to) && Rehome(rs, ms, to)[m].batch == to
  {
  }

  /** After a split of a sealed batch every request of the first half names the
      superseded batch instead of its own, and the second half is queued nowhere, so
      that the placement invariant no longer holds. */
  lemma SplitStrandsMembers(p: BatchPolicy, s: State, bid: Id)
    requires bid in s.batches && s.batches[bid].state.Sealed? && |s.batches[bid].members| >= 2
    requires SecondHalf(s) !in s.sealedOrder && WideInv(p, s)
    ensures PointsAway(Split(s, bid).0, FirstHalf(s), bid)
    ensures SecondHalf(s) !in Split(s, bid).0.sealedOrder
    ensures var s' := Split(s, bid).0;
            !Home(s'.requests, FirstHalf(s), s'.batches[FirstHalf(s)])
  {
    hide Tally, Split, Keyed, AllSound, IndexKnown, FormingKnown, SameMetas, Usage, Rehome, Home;
    var b, s' := s.batches[bid], Split(s, bid).0;
    SplitHalves(s, bid);
    var first, rs1 := b.members[..|b.members| / 2], Rehome(s.requests, b.members[|b.members| / 2..], s.nextBatch);
    SoundIn(p, s.requests, s.batches, bid);
    forall m | m in first ensures m in s'.requests && s'.requests[m].batch == bid {
      MemberKnown(p, s.requests, b, m);
      RehomeSame(s.requests, b.members[|b.members| / 2..], s.nextBatch);
      RehomeSame(rs1, first, bid);
      RehomedTo(rs1, first, bid, m);
    }
    NotHome(p, s.requests, b, s'.requests, FirstHalf(s), s'.batches[FirstHalf(s)], first[0]);
  }

  lemma MemberKnown(p: BatchPolicy, rs: Requests, b: Batch, m: Id)
    requires Sound(p, rs, b) && m in b.members
    ensures m in rs
  {
    assert Candidate(p, rs, b.key, m);
  }

  lemma NotHome(p: BatchPolicy, rs: Requests, b: Batch, rs': Requests, f: Id, first: Batch, m: Id)
    requires Sound(p, rs, b) && m in b.members && m in first.members && first.state.Sealed?
    requires m in rs' ==> rs'[m].batch != f
    ensures !Home(rs', f, first)
  {
  }

  /** Splitting a forming batch keeps the first half under the old number and in the
      forming map; the second half becomes a forming batch that no key leads to, so
      no tick will fill or seal it. */
  lemma SplitOrphansChild(s: State, bid: Id)
    requires Numbered(s) && FormingKnown(s.batches, s.forming) && bid in s.batches
    requires s.batches[bid].state.Forming? && |s.batches[bid].members| >= 2
    ensures var s' := Split(s, bid).0;
            && SecondHalf(s) in s'.batches && s'.batches[SecondHalf(s)].state.Forming?
            && s'.batches[SecondHalf(s)].members == s.batches[bid].members[|s.batches[bid].members| / 2..]
            && (forall k :: k in s'.forming ==> s'.forming[k] != SecondHalf(s))
            && !FormingExact(s'.batches, s'.forming)
  {
    hide SplitRequests, Tally, DescriptorFrom;
    var s' := Split(s, bid).0;
    assert s.nextBatch !in s.batches;
    assert s'.batches[SecondHalf(s)].state.Forming?;
  }
}
