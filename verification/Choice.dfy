/** Which candidate a fill takes next. */
module Choice {
  import opened Types
  import opened Policy
  import opened Fairness
  import opened Scheduler

  lemma BeforeTotal(p: BatchPolicy, s: State, x: Id, y: Id)
    requires x in s.requests && y in s.requests && x != y
    ensures Before(p, s, x, y) || Before(p, s, y, x)
  {
    hide Ratio;
  }

  lemma BeforeTrans(p: BatchPolicy, s: State, x: Id, y: Id, z: Id)
    requires x in s.requests && y in s.requests && z in s.requests && Before(p, s, x, y) && Before(p, s, y, z)
    ensures Before(p, s, x, z)
  {
    hide Ratio;
  }

  /** The pick precedes every other candidate, whatever their order in the list. */
  lemma {:induction false} PickIsFirst(p: BatchPolicy, s: State, pool: seq<Id>, x: Id)
    requires pool != [] && (forall c :: c in pool ==> c in s.requests) && x in pool && x != Pick(p, s, pool)
    ensures Before(p, s, Pick(p, s, pool), x)
  {
    hide Before;
    if |pool| > 1 {
      var best := Pick(p, s, pool[1..]);
      if Before(p, s, pool[0], best) {
        if x != best {
          assert x in pool[1..];
          PickIsFirst(p, s, pool[1..], x);
          BeforeTrans(p, s, pool[0], best, x);
        }
      } else if x == pool[0] {
        BeforeTotal(p, s, x, best);
      } else {
        PickIsFirst(p, s, pool[1..], x);
      }
    }
  }

  predicate Earlier(rs: Requests, x: Id, y: Id)
    requires x in rs && y in rs
  {
    rs[x].submitted < rs[y].submitted || (rs[x].submitted == rs[y].submitted && x < y)
  }

  lemma AdmissibleKnown(p: BatchPolicy, s: State, bid: Id, x: Id, now: int)
    requires bid in s.batches && Admissible(p, s, bid, x, now)
    ensures x in s.requests
  {
  }
}
