/** persist_to and recover_from on the scheduler object. */
module Archive {
  import opened Types
  import opened Scheduler
  import opened Engine
  import opened Snapshot
  import opened Recovery
  import Persistence
  import StateFile
  import StateFileIO
  import Identity

  /** The C++ string lengths, and a body that SHA-256 can digest. */
  ghost predicate Savable(s: State) {
    && Sized(s)
    && forall o, ps | Walks(s, o) && StateFile.Enumerates(ps, ServedNames(s.served)) ::
         && StateFileIO.TablesSized(TablesOf(s, o)) && StateFile.Countable(TablesOf(s, o))
         && |StateFile.PutBody(Persistence.PutBatch, TablesOf(s, o), ps, [])| < 0x2000_0000_0000_0000
  }

  // ---- build_persisted ----

  method BuildRequests(rs: Requests) returns (rows: seq<Persistence.SavedRequest>, order: seq<Id>)
    requires forall r :: r in rs ==> RequestSized(r, rs[r])
    ensures Visits(order, rs.Keys) && rows == RequestRows(rs, order)
  {
    hide RequestRow, RequestSized;
    order := Enumerate(rs.Keys);
    rows := [];
    for i := 0 to |order|
      invariant rows == RequestRows(rs, order[..i])
    {
      rows := rows + [RequestRow(order[i], rs[order[i]])];
    }
    assert order[..|order|] == order;
  }

  method BuildAttempts(at: Attempts) returns (rows: seq<Persistence.SavedAttempt>, order: seq<Id>)
    requires forall a :: a in at ==> AttemptSized(a, at[a])
    ensures Visits(order, at.Keys) && rows == AttemptRows(at, order)
  {
    hide AttemptRow, AttemptSized;
    order := Enumerate(at.Keys);
    rows := [];
    for i := 0 to |order|
      invariant rows == AttemptRows(at, order[..i])
    {
      rows := rows + [AttemptRow(order[i], at[order[i]])];
    }
    assert order[..|order|] == order;
  }

  method BuildBatches(bs: Batches, cs: map<Id, Closing>) returns (rows: seq<Persistence.SavedBatch>, order: seq<Id>)
    requires cs.Keys == bs.Keys && forall b :: b in bs ==> BatchSized(b, bs[b])
    ensures Visits(order, bs.Keys) && rows == BatchRows(bs, order, cs)
  {
    hide BatchRow, BatchSized;
    order := Enumerate(bs.Keys);
    rows := [];
    for i := 0 to |order|
      invariant rows == BatchRows(bs, order[..i], cs)
    {
      assert order[i] in bs && order[i] in cs;
      rows := rows + [BatchRow(order[i], bs[order[i]], cs[order[i]])];
    }
    assert order[..|order|] == order;
  }

  /** These tenants, and no other, are named. */
  ghost predicate Names(served: map<U64, U64>, done: seq<U64>, names: map<Bytes, U64>) {
    && (forall t :: t in done ==> t in served && Name(t) in names && names[Name(t)] == served[t])
    && (forall k :: k in names ==> exists t :: t in done && k == Name(t))
  }

  lemma NameNext(served: map<U64, U64>, done: seq<U64>, names: map<Bytes, U64>, t: U64)
    requires Names(served, done, names) && t in served
    ensures Names(served, done + [t], names[Name(t) := served[t]])
  {
    hide Name;
    forall u | u in done && Name(u) == Name(t) ensures u == t { NameInjective(u, t); }
  }

  lemma NamesAll(served: map<U64, U64>, walk: seq<U64>, names: map<Bytes, U64>)
    requires Names(served, walk, names) && forall t :: t in walk <==> t in served
    ensures names == ServedNames(served)
  {
    hide Name;
    var all := ServedNames(served);
    forall k | k in names ensures k in all && all[k] == names[k] {
      var t :| t in walk && k == Name(t);
      assert all[Name(t)] == served[t];
    }
    forall k | k in all ensures k in names {
      var t :| t in served && k == Name(t);
      assert t in walk;
    }
  }

  /** One record a tenant, under the tenant's number in decimal. */
  method BuildNames(served: map<U64, U64>) returns (names: map<Bytes, U64>)
    ensures names == ServedNames(served)
  {
    hide Name, ServedNames;
    var walk := Enumerate(served.Keys);
    names := map[];
    for i := 0 to |walk|
      invariant Names(served, walk[..i], names)
    {
      NameNext(served, walk[..i], names, walk[i]);
      assert walk[..i + 1] == walk[..i] + [walk[i]];
      names := names[Name(walk[i]) := served[walk[i]]];
    }
    assert walk[..|walk|] == walk;
    NamesAll(served, walk, names);
  }

  method BuildPersisted(f: Fabric, cs: map<Id, Closing>) returns (rt: Persistence.Runtime, o: Orders)
    requires Sized(f.View()) && cs.Keys == f.batches.Keys
    ensures Walks(f.View(), o) && rt == Persistence.Runtime(TablesOf(f.View(), o), ServedNames(f.served))
  {
    hide RequestRows, AttemptRows, BatchRows, RequestSized, AttemptSized, BatchSized, ServedNames, Visits;
    var requests, ro := BuildRequests(f.requests);
    var attempts, ao := BuildAttempts(f.attempts);
    var batches, bo := BuildBatches(f.batches, cs);
    var names := BuildNames(f.served);
    o := Orders(ro, ao, bo, cs);
    var counters := Persistence.Counters(f.epoch, f.nextRequest, f.nextBatch, f.nextAttempt, f.nextGeneration);
    rt := Persistence.Runtime(Persistence.Tables(counters, requests, attempts, batches), names);
  }

  lemma {:induction false} MapOfWalk(m: map<Bytes, U64>, walk: seq<Bytes>, ps: Persistence.Listing)
    requires |ps| == |walk| && forall i :: 0 <= i < |walk| ==> walk[i] in m && ps[i] == (walk[i], m[walk[i]])
    ensures var n := StateFile.MapOf(ps); forall k :: (k in n <==> k in walk) && (k in n ==> n[k] == m[k])
  {
    if ps != [] {
      var n := |ps| - 1;
      MapOfWalk(m, walk[..n], ps[..n]);
      assert walk == walk[..n] + [walk[n]];
    }
  }

  /** The entries of the fairness record, each once. */
  method ListRecord(m: map<Bytes, U64>) returns (ps: Persistence.Listing)
    ensures StateFile.Enumerates(ps, m)
  {
    hide StateFile.MapOf;
    var walk := Enumerate(m.Keys);
    ps := [];
    for i := 0 to |walk|
      invariant |ps| == i && forall j :: 0 <= j < i ==> ps[j] == (walk[j], m[walk[j]])
    {
      ps := ps + [(walk[i], m[walk[i]])];
    }
    MapOfWalk(m, walk, ps);
    assert StateFile.MapOf(ps) == m;
  }

  /** persist_to: what is written stands for the object's state. */
  method PersistTo(f: Fabric, cs: map<Id, Closing>) returns (file: Bytes, o: Orders, ps: Persistence.Listing)
    requires Savable(f.View()) && cs.Keys == f.batches.Keys
    ensures Walks(f.View(), o) && StateFile.Enumerates(ps, ServedNames(f.served)) && StateFile.Countable(TablesOf(f.View(), o))
    ensures file == StateFile.Save(TablesOf(f.View(), o), ps)
  {
    hide TablesOf, ServedNames, StateFile.Enumerates, StateFileIO.TablesSized, StateFile.Save, StateFile.PutBody, StateFile.Countable, Walks,
         RequestSized, AttemptSized, BatchSized;
    var rt;
    rt, o := BuildPersisted(f, cs);
    ps := ListRecord(rt.served);
    NamesSized(rt.served, ps, f.served);
    file := StateFileIO.SaveBytes(rt.tables, ps);
  }

  lemma NamesSized(names: map<Bytes, U64>, ps: Persistence.Listing, served: map<U64, U64>)
    requires StateFile.Enumerates(ps, names) && names == ServedNames(served) && Word(|served|)
    ensures |ps| <= Identity.ANY_LENGTH && forall p :: p in ps ==> |p.0| <= Identity.ANY_LENGTH
  {
    hide ServedNames, StateFile.MapOf;
    NamesFit(served);
    StateFile.MapOfKeys(ps);
    forall p | p in ps ensures |p.0| <= 20 { assert p.0 in StateFile.KeysOf(ps); }
  }

  /** recover_from: a file that is too long or that the validator refuses changes
      nothing. */
  method RecoverFrom(f: Fabric, file: Bytes) returns (ok: bool, ps: Persistence.Listing)
    modifies f
    ensures ok <==> StateFile.Load(file).Some?
    ensures ok ==> && StateFile.Enumerates(ps, StateFile.Load(file).value.served)
                   && f.View() == Recover(old(f.View()), StateFile.Load(file).value.tables, ps)
    ensures !ok ==> f.View() == old(f.View())
  {
    hide StateFile.Parse, StateFile.Enumerates, Recover;
    if |file| > StateFile.MAX_FILE { return false, []; }
    var rt := StateFileIO.ParseBytes(file);
    if rt.None? { return false, []; }
    ps := ListRecord(rt.value.served);
    LoadInto(f, rt.value.tables, ps);
    ok := true;
  }
}
