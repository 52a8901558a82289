/** A state of a core run, saved and loaded again: what is the same, what is not, and
    when the scheduler's invariants hold of what is loaded. */
module Reload {
  import opened Types
  import opened Policy
  import opened Scheduler
  import opened Totals
  import opened Wide
  import opened Placement
  import opened Core
  import opened Trials
  import opened Ledger
  import opened Invariant
  import opened Snapshot
  import opened Recovery
  import Persistence
  import StateFile
  import Sizes
  import Engine
  import Canonical
  import Identity

  // ---- enumerators come back ----

  lemma StatesComeBack(st: RequestState, bst: BatchState)
    ensures RequestStateOf(RequestByte(st)) == st && BatchStateOf(BatchByte(bst)) == bst
  {
  }

  // ---- what is loaded ----

  /** A deferred request comes back queued. */
  function Requeued(q: Request): Request { q.(inWaiting := WaitingState(q.state)) }

  /** The error code of an attempt is not saved. */
  function Unexplained(x: Attempt): Attempt { x.(error := 0) }

  /** The descriptor comes from the first member; the waiting limit and the members'
      outcomes are not saved. */
  function Stripped(rs: Requests, x: Batch): Batch {
    var d := if x.members != [] && x.members[0] in rs then rs[x.members[0]].meta.descriptor else NO_DESCRIPTOR;
    x.(phase := d.phase, descriptor := d, allowedWait := NO_DEADLINE, outcomes := map[])
  }

  predicate RequestsBack(rs: Requests, rs': Requests) {
    rs'.Keys == rs.Keys && forall r :: r in rs ==> rs'[r] == Requeued(rs[r])
  }

  predicate AttemptsBack(at: Attempts, at': Attempts) {
    at'.Keys == at.Keys && forall a :: a in at ==> at'[a] == Unexplained(at[a])
  }

  predicate BatchesBack(rs: Requests, bs: Batches, bs': Batches) {
    bs'.Keys == bs.Keys && forall b :: b in bs ==> bs'[b] == Stripped(rs, bs[b])
  }

  /** The loaded state against the saved one. The index and the queue of sealed batches
      are rebuilt in another order, and nothing is outstanding. */
  ghost predicate Back(s: State, s': State) {
    && RequestsBack(s.requests, s'.requests) && AttemptsBack(s.attempts, s'.attempts)
    && BatchesBack(s.requests, s.batches, s'.batches)
    && s'.forming == s.forming && QueueExact(s.batches, s'.sealedOrder)
    && IndexExact(s'.requests, s'.index)
    && s'.served == s.served && s'.outstanding == (map t | t in s.served :: 0)
    && s'.epoch == s.epoch && s'.nextRequest == s.nextRequest && s'.nextBatch == s.nextBatch
    && s'.nextAttempt == s.nextAttempt && s'.nextGeneration == s.nextGeneration
  }

  lemma RequestRowBack(r: Id, q: Request)
    requires RequestSized(r, q) && q.key == Identity.KeyOf(q.meta.descriptor)
    ensures RequestOf(RequestRow(r, q)) == Requeued(q)
  {
    hide Identity.KeyOf, RequestStateOf, RequestByte;
    StatesComeBack(q.state, BatchState.Forming);
  }

  lemma AttemptRowBack(a: Id, x: Attempt)
    requires AttemptSized(a, x)
    ensures AttemptOf(AttemptRow(a, x)) == Unexplained(x)
  {
    hide RequestStateOf, RequestByte;
    StatesComeBack(x.state, BatchState.Forming);
  }

  lemma BatchRowBack(rs: Requests, rs': Requests, b: Id, x: Batch, c: Closing)
    requires BatchSized(b, x) && RequestsBack(rs, rs')
    ensures BatchOf(rs', BatchRow(b, x, c)) == Stripped(rs, x)
  {
    hide BatchStateOf, BatchByte;
    StatesComeBack(RequestState.Created, x.state);
  }

  lemma RequestsComeBack(rs: Requests, order: seq<Id>, rs': Requests)
    requires Keyed(rs) && Engine.Visits(order, rs.Keys) && forall r :: r in rs ==> RequestSized(r, rs[r])
    requires Tabled(rs', RequestRows(rs, order))
    ensures RequestsBack(rs, rs')
  {
    hide RequestOf, RequestSized, RequestRow, Identity.KeyOf, Requeued;
    var rows := RequestRows(rs, order);
    RowNumbers(rs, order);
    forall r | r in rs ensures r in rs' && rs'[r] == Requeued(rs[r]) {
      var i :| 0 <= i < |order| && order[i] == r;
      RequestRowBack(r, rs[r]);
      assert rows[i].id == r;
    }
  }

  lemma RowNumbers(rs: Requests, order: seq<Id>)
    requires Engine.Visits(order, rs.Keys) && forall r :: r in rs ==> RequestSized(r, rs[r])
    ensures var rows := RequestRows(rs, order); forall i :: 0 <= i < |order| ==> rows[i].id == order[i]
  {
    hide RequestSized, AsWords;
  }

  lemma AttemptsComeBack(at: Attempts, order: seq<Id>, at': Attempts)
    requires Engine.Visits(order, at.Keys) && forall a :: a in at ==> AttemptSized(a, at[a])
    requires AttemptsTabled(at', AttemptRows(at, order))
    ensures AttemptsBack(at, at')
  {
    hide AttemptOf, AttemptSized, Unexplained;
    var rows := AttemptRows(at, order);
    forall a | a in at ensures a in at' && at'[a] == Unexplained(at[a]) {
      var i :| 0 <= i < |order| && order[i] == a;
      AttemptRowBack(a, at[a]);
      assert rows[i].id == a;
    }
  }

  lemma BatchesComeBack(rs: Requests, rs': Requests, bs: Batches, order: seq<Id>, cs: map<Id, Closing>, bs': Batches)
    requires RequestsBack(rs, rs') && Engine.Visits(order, bs.Keys) && cs.Keys == bs.Keys
    requires forall b :: b in bs ==> BatchSized(b, bs[b])
    requires Rows(rs', bs', BatchRows(bs, order, cs))
    ensures BatchesBack(rs, bs, bs')
  {
    hide BatchOf, BatchSized, Stripped, RequestsBack, AsWords;
    var rows := BatchRows(bs, order, cs);
    forall b | b in bs ensures b in bs' && bs'[b] == Stripped(rs, bs[b]) {
      var i :| 0 <= i < |order| && order[i] == b;
      BatchRowBack(rs, rs', b, bs[b], cs[b]);
      assert rows[i].id == b;
    }
  }

  /** With one forming batch per key the map of forming batches comes back too. */
  lemma FormingComesBack(rs: Requests, bs: Batches, fm: map<Key, Id>, bs': Batches, fm': map<Key, Id>)
    requires FormingExact(bs, fm) && BatchesBack(rs, bs, bs') && FormingMapped(bs', fm')
    ensures fm' == fm
  {
    forall k | k in fm ensures k in fm' && fm'[k] == fm[k] {
      assert bs'[fm[k]].state.Forming? && bs'[fm[k]].key == k;
      assert bs[fm'[k]].state.Forming? && bs[fm'[k]].key == k;
    }
    forall k | k in fm' ensures k in fm {
      assert bs[fm'[k]].state.Forming? && bs[fm'[k]].key == k;
    }
  }

  // ---- the fairness record ----

  lemma {:induction false} LeadingSnoc(b: Bytes, d: U8, acc: nat)
    requires (forall c :: c in b ==> Numeral(c)) && Numeral(d)
    ensures Leading(b + [d], acc) == 10 * Leading(b, acc) + (d - 48)
  {
    if b == [] {
      assert (b + [d])[1..] == [];
    } else {
      assert (b + [d])[1..] == b[1..] + [d] && (b + [d])[0] == b[0] && b[0] in b;
      assert forall c :: c in b[1..] ==> c in b;
      LeadingSnoc(b[1..], d, 10 * acc + (b[0] - 48));
    }
  }

  /** std::stoull reads back what std::to_string wrote. */
  lemma StoullOfName(t: U64)
    ensures Stoull(Name(t)) == Some(t)
  {
    hide Name, Leading;
    LeadingOfName(t);
    var b := Name(t);
    assert Numeral(b[0]) && SkipBlanks(b) == b;
  }

  lemma {:induction false} LeadingOfName(t: U64)
    ensures Name(t) != [] && (forall c :: c in Name(t) ==> Numeral(c)) && Leading(Name(t), 0) == t
  {
    var b, d := Name(t), Canonical.Decimal(t);
    if t < 10 {
      assert b == [48 + t];
      assert b[1..] == [];
    } else {
      LeadingOfName(t / 10);
      var last: U8 := 48 + t % 10;
      assert d == Canonical.Decimal(t / 10) + ['0' + (t % 10) as char];
      assert b == Name(t / 10) + [last];
      LeadingSnoc(Name(t / 10), last, 0);
    }
  }

  ghost predicate IsName(k: Bytes) { exists t: U64 :: k == Name(t) }

  ghost predicate NamesTenants(ps: Persistence.Listing) { forall i :: 0 <= i < |ps| ==> IsName(ps[i].0) }

  /** The tenants named so far have what was assigned last. */
  predicate ServedAs(s: State, m: map<Bytes, U64>) {
    && (forall t: U64 :: t in s.served <==> Name(t) in m)
    && (forall t: U64 :: t in s.served ==> s.served[t] == m[Name(t)])
    && s.outstanding == map t | t in s.served :: 0
  }

  lemma {:induction false} RestoreServes(s: State, ps: Persistence.Listing)
    requires s.served == map[] && s.outstanding == map[] && NamesTenants(ps)
    ensures ServedAs(RestoreAll(s, ps), StateFile.MapOf(ps))
  {
    hide Name, Stoull;
    if ps != [] {
      var n := |ps| - 1;
      assert IsName(ps[n].0) && forall i | 0 <= i < n :: IsName(ps[..n][i].0);
      RestoreServes(s, ps[..n]);
      var t: U64 :| ps[n].0 == Name(t);
      StoullOfName(t);
      ServeOne(RestoreAll(s, ps[..n]), StateFile.MapOf(ps[..n]), t, ps[n].1);
    }
  }

  lemma ServeOne(s: State, m: map<Bytes, U64>, t: U64, v: U64)
    requires ServedAs(s, m) && Stoull(Name(t)) == Some(t)
    ensures ServedAs(RestoreOne(s, (Name(t), v)), m[Name(t) := v])
  {
    hide Name, Stoull;
    var s', m' := RestoreOne(s, (Name(t), v)), m[Name(t) := v];
    forall u: U64 ensures (u in s'.served <==> Name(u) in m') && (u in s'.served ==> s'.served[u] == m'[Name(u)]) {
      if Name(u) == Name(t) { NameInjective(u, t); }
    }
  }

  lemma ServiceComesBack(s: State, served: map<U64, U64>, ps: Persistence.Listing)
    requires s.served == map[] && s.outstanding == map[] && StateFile.Enumerates(ps, ServedNames(served))
    ensures var s' := RestoreAll(s, ps); s'.served == served && s'.outstanding == map t | t in served :: 0
  {
    hide Name, RestoreAll, StateFile.MapOf;
    var names := ServedNames(served);
    StateFile.MapOfKeys(ps);
    forall i | 0 <= i < |ps| ensures IsName(ps[i].0) {
      assert ps[i].0 in StateFile.KeysOf(ps);
      assert ps[i].0 in names;
      var t: U64 :| t in served && Name(t) == ps[i].0;
    }
    RestoreServes(s, ps);
    forall t: U64 ensures (t in served <==> Name(t) in names) && (t in served ==> names[Name(t)] == served[t]) {
      NamedOnce(served, t);
    }
  }

  lemma NamedOnce(served: map<U64, U64>, t: U64)
    ensures var names := ServedNames(served);
            (t in served <==> Name(t) in names) && (t in served ==> names[Name(t)] == served[t])
  {
    hide Name;
    var names := ServedNames(served);
    if Name(t) in names {
      var u: U64 :| u in served && Name(u) == Name(t);
      NameInjective(u, t);
    }
    if t in served {
      forall u | u in served && Name(u) == Name(t) ensures u == t { NameInjective(u, t); }
    }
  }

  // ---- the loaded state ----

  /** Whatever the state of the object it is loaded into, the tables of a core run come
      back as `Back` says. */
  lemma LoadedIsBack(p: BatchPolicy, s: State, o: Orders, ps: Persistence.Listing, s0: State)
    requires Inv(p, s) && Sized(s) && Walks(s, o)
    requires StateFile.Coherent(TablesOf(s, o)) && StateFile.Enumerates(ps, ServedNames(s.served))
    ensures var s' := Recover(s0, TablesOf(s, o), ps); Back(s, s') && s'.workers == s0.workers && s'.stats == s0.stats
  {
    hide Inv, RequestRows, AttemptRows, BatchRows, Recover, StateFile.Coherent, StateFile.Enumerates, ServedNames,
         RequestSized, AttemptSized, BatchSized, IndexExact, Tabled, AttemptsTabled, Rows, QueueExact, FormingMapped,
         RequestsBack, AttemptsBack, BatchesBack, Engine.Visits;
    var t := TablesOf(s, o);
    var s' := Recover(s0, t, ps);
    RecoveredTables(s0, t, ps);
    InvParts(p, s);
    RequestsComeBack(s.requests, o.requests, s'.requests);
    AttemptsComeBack(s.attempts, o.attempts, s'.attempts);
    BatchesComeBack(s.requests, s'.requests, s.batches, o.batches, o.closings, s'.batches);
    FormingComesBack(s.requests, s.batches, s.forming, s'.batches, s'.forming);
    QueueComesBack(s.requests, s.batches, s'.batches, s'.sealedOrder);
    RecoveredService(s0, t, ps, s.served);
  }

  lemma InvParts(p: BatchPolicy, s: State)
    requires Inv(p, s)
    ensures Keyed(s.requests) && FormingExact(s.batches, s.forming)
  {
    hide Numbered, AllSound, IndexKnown, FormingKnown, Placed, Queued, Ordered, TrialInv, LedgerInv, Bounded;
  }

  lemma QueueComesBack(rs: Requests, bs: Batches, bs': Batches, order: seq<Id>)
    requires BatchesBack(rs, bs, bs') && QueueExact(bs', order)
    ensures QueueExact(bs, order)
  {
  }

  lemma RecoveredService(s0: State, t: Persistence.Tables, ps: Persistence.Listing, served: map<U64, U64>)
    requires StateFile.Enumerates(ps, ServedNames(served))
    ensures var s' := Recover(s0, t, ps); s'.served == served && s'.outstanding == map t | t in served :: 0
  {
    hide LoadRequests, LoadAttempts, LoadBatches, RestoreAll, StateFile.Enumerates, ServedNames;
    var s1 := LoadRequests(Cleared(s0, t.counters), t.requests);
    var s2 := s1.(attempts := LoadAttempts(map[], t.attempts));
    LoadingServesNobody(Cleared(s0, t.counters), t.requests);
    BatchesServeNobody(s2, t.batches);
    ServiceComesBack(LoadBatches(s2, t.batches), served, ps);
  }

  lemma {:induction false} LoadingServesNobody(s: State, xs: seq<Persistence.SavedRequest>)
    ensures var s' := LoadRequests(s, xs); s'.served == s.served && s'.outstanding == s.outstanding
  {
    hide RequestOf, IndexAdd;
    if xs != [] { LoadingServesNobody(s, xs[..|xs| - 1]); }
  }

  lemma {:induction false} BatchesServeNobody(s: State, bs: seq<Persistence.SavedBatch>)
    ensures var s' := LoadBatches(s, bs); s'.served == s.served && s'.outstanding == s.outstanding
  {
    hide BatchOf;
    if bs != [] { BatchesServeNobody(s, bs[..|bs| - 1]); }
  }

  // ---- the invariants of the loaded state ----

  /** No request waits outside the index because its tenant was at the cap. */
  predicate NoneDeferred(rs: Requests) { forall r :: r in rs ==> !rs[r].state.Waiting? }

  lemma BackMetas(rs: Requests, rs': Requests)
    requires RequestsBack(rs, rs')
    ensures SameMetas(rs, rs')
  {
  }

  lemma UsageBack(rs: Requests, rs': Requests, members: seq<Id>)
    requires RequestsBack(rs, rs') && AllIn(rs, members)
    ensures Usage(rs', members) == Usage(rs, members)
  {
    hide Usage, RequestsBack;
    BackMetas(rs, rs');
    UsageFrame(rs, rs', members);
  }

  /** The descriptor of the first member has the batch's key. */
  lemma StrippedLabelled(p: BatchPolicy, rs: Requests, b: Batch)
    requires Keyed(rs) && forall m :: m in b.members ==> Candidate(p, rs, b.key, m)
    ensures Labelled(Stripped(rs, b))
  {
    hide Identity.KeyOf, Slips;
    if b.members != [] { assert Candidate(p, rs, b.key, b.members[0]); }
  }

  lemma SoundBack(p: BatchPolicy, rs: Requests, rs': Requests, b: Batch)
    requires RequestsBack(rs, rs') && Keyed(rs) && Sound(p, rs, b)
    ensures Sound(p, rs', Stripped(rs, b))
  {
    hide Usage, HeldAll, Slips, Keyed, Labelled;
    StrippedLabelled(p, rs, b);
    assert forall m :: m in b.members ==> Candidate(p, rs, b.key, m);
    UsageBack(rs, rs', b.members);
    ScreenedBack(p, rs, rs');
  }

  lemma ScreenedBack(p: BatchPolicy, rs: Requests, rs': Requests)
    requires RequestsBack(rs, rs')
    ensures Screened(p, rs') <==> Screened(p, rs)
  {
    hide Slips;
    if Screened(p, rs') {
      forall r | r in rs && Slips(p.budget, rs[r].meta) ensures |rs[r].attempts| <= 1 {
        assert rs'[r].meta == rs[r].meta && r in rs';
      }
    }
  }

  lemma WideBack(p: BatchPolicy, s: State, s': State)
    requires WideInv(p, s) && Queued(s.requests, s.index) && Back(s, s') && NoneDeferred(s.requests) && FormingExact(s.batches, s.forming)
    ensures WideInv(p, s')
  {
    hide Sound, Identity.KeyOf, IndexExact, Stripped, Waits, BucketOk, QueueExact, IndexKnown, FormingExact, FormingKnown, NoneDeferred;
    forall b | b in s'.batches ensures Sound(p, s'.requests, s'.batches[b]) {
      SoundBack(p, s.requests, s'.requests, s.batches[b]);
    }
    IndexBack(p, s.requests, s.index, s'.requests, s'.index);
    FormingBack(s.requests, s.batches, s'.batches, s.forming);
  }

  lemma FormingBack(rs: Requests, bs: Batches, bs': Batches, fm: map<Key, Id>)
    requires FormingExact(bs, fm) && BatchesBack(rs, bs, bs')
    ensures FormingExact(bs', fm) && FormingKnown(bs', fm)
  {
  }

  lemma IndexBack(p: BatchPolicy, rs: Requests, ix: Index, rs': Requests, ix': Index)
    requires IndexKnown(p, rs, ix) && Queued(rs, ix) && RequestsBack(rs, rs') && IndexExact(rs', ix') && NoneDeferred(rs)
    ensures IndexKnown(p, rs', ix')
  {
    hide Slips, Identity.KeyOf;
    forall k, r | k in ix' && r in ix'[k] ensures Candidate(p, rs', k, r) {
      assert BucketOk(rs', k, ix'[k]);
      assert Waits(ix, r, rs[r]);
      assert Candidate(p, rs, rs[r].key, r);
    }
  }

  lemma QueuedBack(rs: Requests, ix: Index, rs': Requests, ix': Index)
    requires Queued(rs, ix) && RequestsBack(rs, rs') && IndexExact(rs', ix')
    ensures Queued(rs', ix') <==> NoneDeferred(rs)
  {
    hide Identity.KeyOf, BucketOk;
    if NoneDeferred(rs) {
      forall r | r in rs' ensures Waits(ix', r, rs'[r]) {
        assert Waits(ix, r, rs[r]) && Indexed(ix', r, rs'[r]);
      }
    }
    if Queued(rs', ix') {
      forall r | r in rs ensures !rs[r].state.Waiting? {
        assert Waits(ix', r, rs'[r]) && Indexed(ix', r, rs'[r]);
      }
    }
  }

  lemma PlacedBack(rs: Requests, bs: Batches, rs': Requests, bs': Batches)
    requires Placed(rs, bs, 0) && RequestsBack(rs, rs') && BatchesBack(rs, bs, bs')
    ensures Placed(rs', bs', 0)
  {
    forall b | b in bs' && b != 0 ensures Home(rs', b, bs'[b]) {
      assert Home(rs, b, bs[b]);
    }
    forall r | r in rs' ensures Housed(bs', r, rs'[r]) {
      assert Housed(bs, r, rs[r]);
    }
  }

  lemma OrderBack(rs: Requests, bs: Batches, bs': Batches, order: seq<Id>)
    requires BatchesBack(rs, bs, bs') && QueueExact(bs, order)
    ensures Ordered(bs', order)
  {
  }

  /** The placement invariant survives exactly when nothing is deferred. */
  lemma CoreBack(s: State, s': State)
    requires CoreInv(s) && Back(s, s')
    ensures CoreInv(s') <==> NoneDeferred(s.requests)
  {
    hide Placed, Queued, FormingExact, Ordered, RequestsBack, AttemptsBack, BatchesBack, QueueExact, IndexExact;
    PlacedBack(s.requests, s.batches, s'.requests, s'.batches);
    QueuedBack(s.requests, s.index, s'.requests, s'.index);
    FormingBack(s.requests, s.batches, s'.batches, s.forming);
    OrderBack(s.requests, s.batches, s'.batches, s'.sealedOrder);
  }

  lemma TrialBack(p: BatchPolicy, s: State, s': State)
    requires TrialInv(p, s) && RequestsBack(s.requests, s'.requests) && AttemptsBack(s.attempts, s'.attempts)
    ensures TrialInv(p, s')
  {
    hide Apart;
    forall r | r in s'.requests ensures Tried(p, s'.attempts, s'.requests[r]) {
      TriedBack(p, s.attempts, s'.attempts, s.requests[r]);
    }
  }

  lemma TriedBack(p: BatchPolicy, at: Attempts, at': Attempts, q: Request)
    requires Tried(p, at, q) && AttemptsBack(at, at')
    ensures Tried(p, at', Requeued(q))
  {
    hide InStep;
    assert q.current in at;
  }

  lemma BoundedBack(p: BatchPolicy, rs: Requests, bs: Batches, rs': Requests, bs': Batches)
    requires Bounded(p, rs, bs) && RequestsBack(rs, rs') && BatchesBack(rs, bs, bs')
    ensures Bounded(p, rs', bs')
  {
    hide RequestsBack, Screened;
    ScreenedBack(p, rs, rs');
    forall b | b in bs' ensures CountOk(p, bs'[b]) { assert CountOk(p, bs[b]); }
  }

  lemma LedgerBack(s: State, s': State)
    requires LedgerInv(s) && RequestsBack(s.requests, s'.requests) && AttemptsBack(s.attempts, s'.attempts) && s'.stats == s.stats
    ensures LedgerInv(s')
  {
    hide WorkOf, InState, Wrap64;
    LedgerFrame(s.requests, s'.requests, s.attempts, s.stats);
    assert |s'.attempts| == |s'.attempts.Keys| && |s.attempts| == |s.attempts.Keys|;
  }

  /** Saved and loaded, a state of a core run meets the invariants of core
      runs again, apart from the statistics, exactly when no request was deferred; and
      the statistics balance if they are those of the saved state. */
  lemma ReloadKeepsInvariant(p: BatchPolicy, s: State, o: Orders, ps: Persistence.Listing, s0: State)
    requires Inv(p, s) && Sized(s) && Walks(s, o) && StateFile.Enumerates(ps, ServedNames(s.served))
    requires Modest(s, o) && Untangled(s.batches) && Unmerged(s.batches)
    requires Sizes.SavedSize(TablesOf(s, o), ps) <= StateFile.MAX_FILE
    ensures StateFile.Countable(TablesOf(s, o)) && StateFile.Load(StateFile.Save(TablesOf(s, o), ps)).Some?
    ensures var s' := Recover(s0, StateFile.Load(StateFile.Save(TablesOf(s, o), ps)).value.tables, ps);
            && Back(s, s')
            && (WideInv(p, s') && CoreInv(s') && TrialInv(p, s') && Bounded(p, s'.requests, s'.batches) <==> NoneDeferred(s.requests))
            && (s0.stats == s.stats ==> (Inv(p, s') <==> NoneDeferred(s.requests)))
  {
    hide WideInv, CoreBut, TrialInv, LedgerInv, Bounded, Walks, Sized, Modest, Untangled, Unmerged, TablesOf, Recover,
         StateFile.Load, StateFile.Save, Sizes.SavedSize, StateFile.Coherent, StateFile.Enumerates, ServedNames, Back, NoneDeferred;
    RestorableExact(p, s, o, ps);
    CoherentExact(p, s, o);
    LoadedIsBack(p, s, o, ps, s0);
    BackKeeps(p, s, Recover(s0, TablesOf(s, o), ps));
  }

  lemma BackKeeps(p: BatchPolicy, s: State, s': State)
    requires Back(s, s') && Inv(p, s)
    ensures WideInv(p, s') && CoreInv(s') && TrialInv(p, s') && Bounded(p, s'.requests, s'.batches) <==> NoneDeferred(s.requests)
    ensures s'.stats == s.stats ==> (Inv(p, s') <==> NoneDeferred(s.requests))
  {
    hide WideInv, Placed, Queued, FormingExact, Ordered, TrialInv, LedgerInv, Bounded, RequestsBack, AttemptsBack, BatchesBack,
         QueueExact, IndexExact, NoneDeferred, CoreBut;
    assert Queued(s.requests, s.index) && FormingExact(s.batches, s.forming) by { CoreParts(s); }
    CoreBack(s, s');
    if NoneDeferred(s.requests) { WideBack(p, s, s'); }
    TrialBack(p, s, s');
    BoundedBack(p, s.requests, s.batches, s'.requests, s'.batches);
    if s'.stats == s.stats { LedgerBack(s, s'); }
  }

  lemma CoreParts(s: State)
    requires CoreInv(s)
    ensures Queued(s.requests, s.index) && FormingExact(s.batches, s.forming)
  {
    hide Placed, Queued, FormingExact, Ordered;
  }
}
