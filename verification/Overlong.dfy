/** Core runs whose state meets every other condition for coming back, and whose file is
    longer than load allows. */
module Overlong {
  import opened Types
  import opened Lists
  import opened Scheduler
  import opened Network
  import opened Smuggling
  import opened Solo
  import opened Snapshot
  import opened Sizes
  import Fairness
  import Identity
  import Octets
  import Persistence
  import StateFile
  import Wire

  /** Nothing but `n` submissions of the same request. */
  function Steps(m: Metadata, now: int, n: nat): seq<Step> { seq(n, _ => Submission(m, now)) }

  ghost function Filling(m: Metadata, now: int, n: nat): (run: seq<System>)
    ensures |run| == n + 1
  {
    Play(Free(), Steps(m, now, n))
  }

  /** The numbers from 1 to `n`. */
  function Numbers(n: nat): seq<Id> { seq(n, i => i + 1) }

  function FirstAttempt(): Attempt { Attempt(1, RequestState.Eligible, 0, [], 0, 0) }

  function Fresh(m: Metadata, now: int, r: Id): Request {
    Request(m, RequestState.Eligible, r, [r], 0, now, Identity.KeyOf(m.descriptor), true)
  }

  function Queue(m: Metadata, now: int, n: nat): Requests { map r | r in Numbers(n) :: Fresh(m, now, r) }

  function Attempted(n: nat): Attempts { map a | a in Numbers(n) :: FirstAttempt() }

  lemma InNumbers(n: nat)
    ensures NoDup(Numbers(n)) && forall r :: r in Numbers(n) <==> 0 < r <= n
  {
    forall r | 0 < r <= n ensures r in Numbers(n) { assert Numbers(n)[r - 1] == r; }
  }

  /** `n` requests are queued, and nothing else has happened. */
  predicate Filled(s: State, m: Metadata, now: int, n: nat) {
    && s.requests == Queue(m, now, n) && s.attempts == Attempted(n) && s.batches == map[] && s.served == map[]
    && s.epoch == 1 && s.nextRequest == n + 1 && s.nextAttempt == n + 1 && s.nextBatch == 1 && s.nextGeneration == 1
  }

  lemma OneMore(s: State, m: Metadata, now: int, n: nat)
    requires Filled(s, m, now, n) && Acceptable(m, now)
    ensures Filled(Submit(Free(), s, m, now), m, now, n + 1)
  {
    hide Identity.KeyOf, IndexAdd, Fairness.NoteWork, Admit, Numbers;
    assert Admit(Free(), s, m, now).Admitted? by { AlwaysAdmitted(s, m, now); }
    InNumbers(n);
    InNumbers(n + 1);
    assert Queue(m, now, n + 1) == Queue(m, now, n)[n + 1 := Fresh(m, now, n + 1)];
    assert Attempted(n + 1) == Attempted(n)[n + 1 := FirstAttempt()];
  }

  lemma AlwaysAdmitted(s: State, m: Metadata, now: int)
    requires Acceptable(m, now)
    ensures Admit(Free(), s, m, now).Admitted?
  {
  }

  lemma {:induction false} RunFills(m: Metadata, now: int, n: nat)
    requires Acceptable(m, now)
    ensures Filled(Filling(m, now, n)[n].fabric, m, now, n)
  {
    hide Filled, Submit, Acceptable;
    if n == 0 {
      assert Filled(INITIAL, m, now, 0) by { NothingFilled(m, now); }
    } else {
      RunFills(m, now, n - 1);
      assert Steps(m, now, n)[..n - 1] == Steps(m, now, n - 1);
      OneMore(Filling(m, now, n - 1)[n - 1].fabric, m, now, n - 1);
    }
  }

  lemma NothingFilled(m: Metadata, now: int)
    ensures Filled(INITIAL, m, now, 0)
  {
    hide Identity.KeyOf;
  }

  lemma RunIsCore(m: Metadata, now: int, n: nat)
    ensures IsRun(Free(), Filling(m, now, n), Steps(m, now, n))
  {
    hide Play, Next;
    PlayFollows(Free(), Steps(m, now, n));
  }

  function InOrder(n: nat): Orders { Orders(Numbers(n), Numbers(n), [], map[]) }

  lemma FilledIsSized(s: State, m: Metadata, now: int, n: nat)
    requires Filled(s, m, now, n) && n < 0x1_0000_0000 && Time(now)
    ensures Sized(s) && Walks(s, InOrder(n)) && |s.requests| == |s.attempts| == n
  {
    hide Identity.KeyOf, Numbers;
    InNumbers(n);
    FilledWalks(s, m, now, n);
    forall r | r in s.requests ensures RequestSized(r, s.requests[r]) {
      assert s.requests[r] == Fresh(m, now, r);
    }
    forall a | a in s.attempts ensures AttemptSized(a, s.attempts[a]) {
      assert s.attempts[a] == FirstAttempt();
    }
  }

  lemma FilledWalks(s: State, m: Metadata, now: int, n: nat)
    requires Filled(s, m, now, n)
    ensures Walks(s, InOrder(n)) && |s.requests| == |s.attempts| == n
  {
    hide Identity.KeyOf, Fresh;
    InNumbers(n);
    CountOfOrder(Numbers(n), s.requests.Keys);
    CountOfOrder(Numbers(n), s.attempts.Keys);
    assert |s.requests| == |s.requests.Keys| && |s.attempts| == |s.attempts.Keys|;
  }

  lemma FilledIsModest(s: State, m: Metadata, now: int, n: nat)
    requires Filled(s, m, now, n) && n <= Persistence.MAX_RECORDS && |s.requests| == |s.attempts| == n
    requires Wire.MetaFits(m) && Persistence.MetaKnown(m)
    ensures Modest(s, InOrder(n)) && Untangled(s.batches) && Unmerged(s.batches)
  {
    hide Identity.KeyOf, Wire.MetaFits, Persistence.MetaKnown, Numbers;
    forall r | r in s.requests ensures RequestModest(s.requests[r]) { assert s.requests[r] == Fresh(m, now, r); }
    forall a | a in s.attempts ensures AttemptModest(s.attempts[a]) { assert s.attempts[a] == FirstAttempt(); }
  }

  lemma {:induction false} SumAtLeast<T>(size: T -> nat, xs: seq<T>, k: nat)
    requires forall x :: x in xs ==> size(x) >= k
    ensures Sum(size, xs) >= k * |xs|
  {
    if xs != [] {
      assert xs[0] in xs && forall x :: x in xs[1..] ==> x in xs;
      SumAtLeast(size, xs[1..], k);
      assert k * |xs| == k + k * |xs[1..]| by { OneMoreTime(k, |xs| - 1); }
    }
  }

  lemma OneMoreTime(k: nat, n: nat)
    ensures k * (n + 1) == k + k * n
  {
  }

  lemma FilledIsLong(s: State, m: Metadata, now: int, n: nat)
    requires Filled(s, m, now, n) && Sized(s) && Walks(s, InOrder(n))
    ensures SavedSize(TablesOf(s, InOrder(n)), []) >= |m.payload| * n
  {
    hide Identity.KeyOf, Sum, AttemptSize, BatchSize, DescriptorSize, RequestSized, AttemptSized;
    var rows := TablesOf(s, InOrder(n)).requests;
    forall x | x in rows ensures RequestSize(x) >= |m.payload| {
      var i :| 0 <= i < |rows| && rows[i] == x;
      assert x.meta == m;
    }
    SumAtLeast(RequestSize, rows, |m.payload|);
  }

  /** Everything that RestorableExact asks for holds, but for the length of the file. */
  ghost predicate OnlyTooLong(s: State, o: Orders) {
    && Sized(s) && Walks(s, o) && Modest(s, o) && Untangled(s.batches) && Unmerged(s.batches)
    && StateFile.Enumerates([], ServedNames(s.served)) && StateFile.Countable(TablesOf(s, o))
    && StateFile.Load(StateFile.Save(TablesOf(s, o), [])) == None
  }

  /** For every request with an identity that is not late and within the reader's limits:
      after so many submissions that the payloads alone exceed the limit on the file, the
      state is modest, nothing is tangled or merged, and its file is refused. */
  lemma LongIsRefused(m: Metadata, now: int, n: nat)
    requires Acceptable(m, now) && Wire.MetaFits(m) && Persistence.MetaKnown(m) && Time(now)
    requires n <= Persistence.MAX_RECORDS && |m.payload| * n > StateFile.MAX_FILE
    ensures IsRun(Free(), Filling(m, now, n), Steps(m, now, n)) && OnlyTooLong(Filling(m, now, n)[n].fabric, InOrder(n))
  {
    hide IsRun, Play, Steps, Filled, Acceptable, Sized, Walks, Modest, Untangled, Unmerged, SavedSize, StateFile.Parse, StateFile.Save,
         StateFile.Countable, TablesOf, Wire.MetaFits, Persistence.MetaKnown;
    var s, o := Filling(m, now, n)[n].fabric, InOrder(n);
    RunIsCore(m, now, n);
    RunFills(m, now, n);
    FilledIsSized(s, m, now, n);
    FilledIsModest(s, m, now, n);
    FilledIsLong(s, m, now, n);
    TablesWritable(s, o);
    assert s.served == map[] by { FilledServes(s, m, now, n); }
    SavedLength(TablesOf(s, o), []);
  }

  lemma FilledServes(s: State, m: Metadata, now: int, n: nat)
    requires Filled(s, m, now, n)
    ensures s.served == map[]
  {
    hide Identity.KeyOf;
  }

  /** Eighty-one requests with payloads of 1 MiB are enough. */
  lemma EightyOne(m: Metadata, now: int)
    requires Acceptable(m, now) && Wire.MetaFits(m) && Persistence.MetaKnown(m) && Time(now) && |m.payload| == Octets.MAX_STRING
    ensures IsRun(Free(), Filling(m, now, 81), Steps(m, now, 81)) && OnlyTooLong(Filling(m, now, 81)[81].fabric, InOrder(81))
  {
    hide Acceptable, Wire.MetaFits, Persistence.MetaKnown, Filling, IsRun, OnlyTooLong;
    LongIsRefused(m, now, 81);
  }
}
