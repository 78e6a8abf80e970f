/** The pool cache beside the interleaved transactions: whatever the two do together, the cache behaves
    as module CacheRaces says, over the tables that the transactions commit. */
module CachedRuns {
  import opened Common
  import opened PayoutSplit
  import opened Ledger
  import opened PoolCache
  import opened SerialOrder
  import opened CacheStaleness
  import T = Transactions
  import S = Serializability
  import C = CacheRaces

  datatype System = System(db: T.State, cache: C.State)

  const INITIAL := System(T.INITIAL, C.INITIAL)

  /** What a commit means to the cache: a new version of the rows, and a delete to come that depends on
      what the service was told, not on what serving its request would have said. */
  function Noticed(cache: C.State, t: Tables, r: Request, o: Outcome, tables: Tables, call: C.CallId, position: nat): C.State {
    var newest := C.Latest(cache).newest;
    cache.(step := cache.step + 1,
           versions := cache.versions
                       + [C.Version(tables, if r.CreatePool? && o == PoolCreated then C.Inserted(newest, position, r.pid) else newest)],
           commits := cache.commits + [C.Commit(r, position, C.DeletedOn(o, t, r), cache.clock, None)],
           calls := cache.calls[call := C.Deleting(|cache.commits|)])
  }

  /** Transaction `t` commits a write. */
  ghost predicate Commits(s: System, s': System, t: T.TxnId, call: C.CallId, position: nat) {
    && t in s.db.txns && T.Advance(s.db, t) == T.Went(s'.db) && s'.db.tables != s.db.tables
    && t in s'.db.txns && s'.db.txns[t].pc.Finished? && call !in s.cache.calls
    && s'.cache == Noticed(s.cache, s.db.tables, s.db.txns[t].request, s'.db.txns[t].pc.outcome, s'.db.tables, call, position)
  }

  /** A step of a transaction that publishes nothing. */
  ghost predicate Works(s: System, s': System) {
    T.Next(s.db, s'.db) && s'.db.tables == s.db.tables && s'.cache == s.cache
  }

  /** A step of the clock, of a reader, of a writer's delete, or of the cache itself. */
  ghost predicate Caches(ttl: nat, s: System, s': System) {
    s'.db == s.db && exists m: C.Move :: !m.Write? && C.Can(ttl, s.cache, m) && s'.cache == C.Do(ttl, s.cache, m)
  }

  ghost predicate Next(ttl: nat, s: System, s': System) {
    Works(s, s') || Caches(ttl, s, s') || exists t, call, position :: Commits(s, s', t, call, position)
  }

  ghost predicate Run(ttl: nat, trace: seq<System>) {
    && trace != [] && trace[0] == INITIAL
    && forall i :: 0 <= i < |trace| - 1 ==> Next(ttl, trace[i], trace[i + 1])
  }

  // ---------------------------------------------------------------------------------------------
  // A commit of the interleaved system is a write of the cache model
  // ---------------------------------------------------------------------------------------------

  /** The last version is what is committed. */
  ghost predicate InStep(s: System) {
    s.cache.versions != [] && C.Latest(s.cache).tables == s.db.tables
  }

  /** Transactions placed early in the serial order delete nothing and touch no pool. */
  lemma EarlyCommitFits(s: T.State, t: T.TxnId)
    requires S.Inv(s) && t in s.txns && T.Advance(s, t).Went? && S.Place(s.txns[t].pc).Some?
    ensures var s', r := T.Advance(s, t).next, s.txns[t].request;
            && t in s'.txns && (s'.txns[t].pc.Finished? ==> !Invalidates(s'.txns[t].pc.outcome))
            && !r.CreatePool? && !Invalidates(Serve(s.tables, r).outcome)
            && s'.tables.pools == s.tables.pools == Serve(s.tables, r).tables.pools
  {
    S.EarlyCommitsAside(s, t);
    S.FitsNow(s, t);
    var r := s.txns[t].request;
    EarlyRequestFits(s.tables, r, s.txns[t].pc);
    hide S.Inv, Fits, Serve, PayoutsFor, SharesFarmer, RepeatsFarmer;
  }

  lemma EarlyRequestFits(t: Tables, r: Request, pc: T.Pc)
    requires Fits(t, r, pc) && S.Place(pc).Some?
    ensures !r.CreatePool? && !Invalidates(Serve(t, r).outcome) && Serve(t, r).tables.pools == t.pools
  {
    if r.Webhook? {
      WebhookWritesNoPool(t, r);
    }
    hide Ordered, PayoutsFor, Revenue;
  }

  /** A commit changes the pools, and is noticed by the cache, as serving its request now would. */
  lemma CommitFits(s: T.State, t: T.TxnId)
    requires S.Inv(s) && t in s.txns && T.Advance(s, t).Went? && T.Advance(s, t).next.tables != s.tables
    requires t in T.Advance(s, t).next.txns && T.Advance(s, t).next.txns[t].pc.Finished?
    ensures var s', r := T.Advance(s, t).next, s.txns[t].request; var o := s'.txns[t].pc.outcome;
            && s'.tables.pools == Serve(s.tables, r).tables.pools
            && C.DeletedOn(o, s.tables, r) == C.DeletedAfter(s.tables, r)
            && (r.CreatePool? ==> o == Serve(s.tables, r).outcome)
  {
    if S.Place(s.txns[t].pc).Some? {
      EarlyCommitFits(s, t);
    } else {
      S.CommitsAreServed(s, t);
    }
    hide T.Advance, S.Inv, Serve;
  }

  lemma NoticedIsWritten(ttl: nat, cache: C.State, r: Request, o: Outcome, tables: Tables, call: C.CallId, position: nat)
    requires var t := C.Latest(cache).tables;
             && call !in cache.calls && tables.pools == Serve(t, r).tables.pools
             && C.DeletedOn(o, t, r) == C.DeletedAfter(t, r) && (r.CreatePool? ==> o == Serve(t, r).outcome)
    ensures var m := C.Write(call, r, position, tables);
            C.Can(ttl, cache, m) && Noticed(cache, C.Latest(cache).tables, r, o, tables, call, position) == C.Do(ttl, cache, m)
  {
    hide Serve, C.DeletedOn, C.DeletedAfter;
  }

  lemma CommitIsWrite(ttl: nat, s: System, s': System, t: T.TxnId, call: C.CallId, position: nat)
    requires S.Inv(s.db) && InStep(s) && Commits(s, s', t, call, position)
    ensures InStep(s')
    ensures var m := C.Write(call, s.db.txns[t].request, position, s'.db.tables); C.Can(ttl, s.cache, m) && s'.cache == C.Do(ttl, s.cache, m)
  {
    CommitFits(s.db, t);
    assert InStep(s') by {
      hide Serve, C.DeletedOn, C.DeletedAfter, S.Inv, T.Advance;
    }
    hide T.Advance, S.Inv, Serve, C.DeletedOn, C.DeletedAfter, Noticed, C.Can, C.Do;
    NoticedIsWritten(ttl, s.cache, s.db.txns[t].request, s'.db.txns[t].pc.outcome, s'.db.tables, call, position);
  }

  /** Every step of the transactions can be taken beside the cache. */
  lemma StepsAreTaken(ttl: nat, s: System, db: T.State, call: C.CallId, position: nat) returns (s': System)
    requires S.Inv(s.db) && T.Next(s.db, db) && call !in s.cache.calls
    ensures Next(ttl, s, s') && s'.db == db
  {
    if db.tables == s.db.tables {
      s' := System(db, s.cache);
      assert Works(s, s');
    } else {
      var t :| t in s.db.txns && T.Advance(s.db, t) == T.Went(db);
      CommitsFinish(s.db, t);
      s' := System(db, Noticed(s.cache, s.db.tables, s.db.txns[t].request, db.txns[t].pc.outcome, db.tables, call, position));
      assert Commits(s, s', t, call, position);
    }
    hide S.Inv, T.Advance, Noticed;
  }

  lemma CommitsFinish(s: T.State, t: T.TxnId)
    requires S.Inv(s) && t in s.txns && T.Advance(s, t).Went?
    ensures var s' := T.Advance(s, t).next; s'.tables != s.tables ==> t in s'.txns && s'.txns[t].pc.Finished?
  {
    if S.Place(s.txns[t].pc) == None {
      S.CommitsAreServed(s, t);
      hide T.Advance;
    } else {
      hide PayoutsFor, SharesFarmer, RepeatsFarmer;
    }
    hide S.Inv, Serve;
  }

  // ---------------------------------------------------------------------------------------------
  // Whole runs
  // ---------------------------------------------------------------------------------------------

  lemma OneLonger(ttl: nat, caches: seq<C.State>, m: C.Move) returns (longer: seq<C.State>)
    requires C.Run(ttl, caches) && C.Can(ttl, caches[|caches| - 1], m)
    ensures C.Run(ttl, longer) && longer[|longer| - 1] == C.Do(ttl, caches[|caches| - 1], m)
  {
    hide C.Can, C.Do;
    longer := caches + [C.Do(ttl, caches[|caches| - 1], m)];
    assert C.Next(ttl, caches[|caches| - 1], longer[|longer| - 1]);
  }

  ghost predicate CommittedBy(trace: seq<System>, n: nat, tables: Tables)
    requires n < |trace|
  {
    exists i :: 0 <= i <= n && trace[i].db.tables == tables
  }

  /** Each version the cache model speaks of was what the database had committed at some moment. */
  ghost predicate VersionsCommitted(trace: seq<System>, n: nat)
    requires n < |trace|
  {
    forall v :: 0 <= v < |trace[n].cache.versions| ==> CommittedBy(trace, n, trace[n].cache.versions[v].tables)
  }

  lemma VersionsStay(ttl: nat, s: System, s': System)
    requires InStep(s) && InStep(s') && Next(ttl, s, s')
    ensures s'.cache.versions == s.cache.versions
         || (|s'.cache.versions| == |s.cache.versions| + 1 && s.cache.versions <= s'.cache.versions && C.Latest(s'.cache).tables == s'.db.tables)
  {
    hide C.Can, T.Advance, T.Next;
  }

  lemma VersionsCommittedNext(ttl: nat, trace: seq<System>, n: nat)
    requires Run(ttl, trace) && n + 1 < |trace| && InStep(trace[n]) && InStep(trace[n + 1]) && VersionsCommitted(trace, n)
    ensures VersionsCommitted(trace, n + 1)
  {
    VersionsStay(ttl, trace[n], trace[n + 1]);
    hide Next;
    var versions := trace[n + 1].cache.versions;
    forall v | 0 <= v < |versions|
      ensures CommittedBy(trace, n + 1, versions[v].tables)
    {
      if v < |trace[n].cache.versions| {
        assert versions[v] == trace[n].cache.versions[v];
        assert CommittedBy(trace, n, trace[n].cache.versions[v].tables);
      }
    }
  }

  /** In every state of every run of the transactions with the cache beside them: the transactions
      alone have a run to it, the cache alone has a run of module CacheRaces to it, whose versions are
      tables that the transactions had committed, the last one what is committed now. */
  lemma {:induction false} BothAreRuns(ttl: nat, trace: seq<System>, n: nat) returns (dbs: seq<T.State>, caches: seq<C.State>)
    requires Run(ttl, trace) && n < |trace|
    ensures T.Run(dbs) && dbs[|dbs| - 1] == trace[n].db
    ensures C.Run(ttl, caches) && caches[|caches| - 1] == trace[n].cache
    ensures InStep(trace[n]) && VersionsCommitted(trace, n)
  {
    if n == 0 {
      dbs, caches := [T.INITIAL], [C.INITIAL];
    } else {
      dbs, caches := BothAreRuns(ttl, trace, n - 1);
      S.RunsKeep(dbs, |dbs| - 1);
      var s, s' := trace[n - 1], trace[n];
      hide T.Next, C.Next, S.Inv, C.Can, C.Do, T.Advance, Noticed, InStep, Next, VersionsCommitted;
      dbs, caches := OneStep(ttl, s, s', dbs, caches);
      VersionsCommittedNext(ttl, trace, n - 1);
    }
  }

  lemma OneStep(ttl: nat, s: System, s': System, dbs: seq<T.State>, caches: seq<C.State>)
    returns (dbs': seq<T.State>, caches': seq<C.State>)
    requires Next(ttl, s, s') && S.Inv(s.db) && InStep(s)
    requires T.Run(dbs) && dbs[|dbs| - 1] == s.db && C.Run(ttl, caches) && caches[|caches| - 1] == s.cache
    ensures T.Run(dbs') && dbs'[|dbs'| - 1] == s'.db && C.Run(ttl, caches') && caches'[|caches'| - 1] == s'.cache
    ensures InStep(s')
  {
    hide T.Advance, Noticed, S.Inv, C.Can, C.Do;
    dbs', caches' := dbs, caches;
    if Works(s, s') {
      dbs' := dbs + [s'.db];
    } else if Caches(ttl, s, s') {
      var m: C.Move :| !m.Write? && C.Can(ttl, s.cache, m) && s'.cache == C.Do(ttl, s.cache, m);
      caches' := OneLonger(ttl, caches, m);
      SameVersions(ttl, s.cache, m);
    } else {
      var t, call, position :| Commits(s, s', t, call, position);
      CommitIsWrite(ttl, s, s', t, call, position);
      assert T.Next(s.db, s'.db);
      dbs' := dbs + [s'.db];
      caches' := OneLonger(ttl, caches, C.Write(call, s.db.txns[t].request, position, s'.db.tables));
    }
  }

  lemma SameVersions(ttl: nat, cache: C.State, m: C.Move)
    requires !m.Write?
    ensures C.Do(ttl, cache, m).versions == cache.versions
  {
  }

  /** So in every run of the two together: an entry differs from what the database has committed
      exactly when what was committed since it was read says so. */
  lemma StaleBesideLedger(ttl: nat, trace: seq<System>, n: nat, key: CacheKey)
    requires Run(ttl, trace) && n < |trace| && key in trace[n].cache.cache
    ensures var s := trace[n]; var c := s.cache.cache[key];
            && c.reading.version < |s.cache.versions|
            && (c.reading.value != Uncached(s.db.tables.pools, C.Latest(s.cache).newest, key) <==> KeyShifted(s.cache, key, c.reading.version))
  {
    var dbs, caches := BothAreRuns(ttl, trace, n);
    StaleExactlyWhen(ttl, caches, |caches| - 1, key);
    hide C.Run, T.Run, KeyShifted, Run;
  }
}
