/** How long a forming batch may wait, in terms of the limits themselves. */
module Limits {
  import opened Types
  import opened Policy
  import opened Scheduler

  /** The time until a deadline, not less than zero. */
  function Left(deadline: int, now: int): int { if deadline < now then 0 else deadline - now }

  /** No limit that binds the member is less than `w`. */
  predicate Allows(p: BatchPolicy, m: Metadata, now: int, w: int) {
    && (m.latency in p.classWait ==> w <= p.classWait[m.latency])
    && (m.deadline > 0 ==> w <= Left(m.deadline, now))
  }

  /** One of the limits that bind the member is `w`. */
  predicate Binds(p: BatchPolicy, m: Metadata, now: int, w: int) {
    (m.latency in p.classWait && w == p.classWait[m.latency]) || (m.deadline > 0 && w == Left(m.deadline, now))
  }

  /** `w` is the least of INT64_MAX, the global limit if there is one, and the limits of
      the members; a single member waits for nothing when solo batches seal at once. */
  predicate Least(p: BatchPolicy, rs: Requests, b: Batch, now: int, w: int) {
    if p.sealSolo && b.accum.count == 1 then w == 0 else LeastOf(p, rs, b.members, now, w)
  }

  predicate LeastOf(p: BatchPolicy, rs: Requests, members: seq<Id>, now: int, w: int) {
    && w <= 0x7fff_ffff_ffff_ffff && (p.globalMaxWait > 0 ==> w <= p.globalMaxWait)
    && (forall r :: r in members && r in rs ==> Allows(p, rs[r].meta, now, w))
    && (w == 0x7fff_ffff_ffff_ffff || (p.globalMaxWait > 0 && w == p.globalMaxWait)
        || exists r :: r in members && r in rs && Binds(p, rs[r].meta, now, w))
  }

  lemma {:induction false} MinWaitIsLeast(p: BatchPolicy, rs: Requests, members: seq<Id>, now: int)
    ensures LeastOf(p, rs, members, now, MinWait(p, rs, members, now))
  {
    if members != [] {
      var n := |members| - 1;
      var v, w := MinWait(p, rs, members[..n], now), MinWait(p, rs, members, now);
      MinWaitIsLeast(p, rs, members[..n], now);
      assert w <= v && (members[n] in rs ==> Allows(p, rs[members[n]].meta, now, w));
      assert w == v || (members[n] in rs && Binds(p, rs[members[n]].meta, now, w));
      hide MinWait;
      LeastSnoc(p, rs, members[..n], members[n], now, v, w);
      assert members == members[..n] + [members[n]];
    }
  }

  lemma LeastSnoc(p: BatchPolicy, rs: Requests, members: seq<Id>, r: Id, now: int, v: int, w: int)
    requires LeastOf(p, rs, members, now, v) && w <= v && (r in rs ==> Allows(p, rs[r].meta, now, w))
    requires w == v || (r in rs && Binds(p, rs[r].meta, now, w))
    ensures LeastOf(p, rs, members + [r], now, w)
  {
    var all := members + [r];
    forall z | z in all && z in rs ensures Allows(p, rs[z].meta, now, w) {
      if z in members { assert Allows(p, rs[z].meta, now, v); }
    }
    assert all[|members|] == r;
    forall z | z in members ensures z in all { }
  }

  /** That is what the scheduler computes. */
  lemma AllowedWaitIsLeast(p: BatchPolicy, rs: Requests, b: Batch, now: int)
    ensures Least(p, rs, b, now, AllowedWait(p, rs, b, now))
  {
    hide LeastOf, MinWait;
    MinWaitIsLeast(p, rs, b.members, now);
  }

  lemma LeastIsUnique(p: BatchPolicy, rs: Requests, b: Batch, now: int, v: int, w: int)
    requires Least(p, rs, b, now, v) && Least(p, rs, b, now, w)
    ensures v == w
  {
    if !(p.sealSolo && b.accum.count == 1) {
      AtMost(p, rs, b.members, now, v, w);
      AtMost(p, rs, b.members, now, w, v);
    }
  }

  lemma AtMost(p: BatchPolicy, rs: Requests, members: seq<Id>, now: int, v: int, w: int)
    requires LeastOf(p, rs, members, now, v) && LeastOf(p, rs, members, now, w)
    ensures v <= w
  {
    if r :| r in members && r in rs && Binds(p, rs[r].meta, now, w) {
      assert Allows(p, rs[r].meta, now, v);
    }
  }
}
