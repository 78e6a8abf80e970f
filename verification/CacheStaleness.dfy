/** Exactly when a cached pool or listing is stale, in terms of what was committed since it was read. */
module CacheStaleness {
  import opened PayoutSplit
  import opened Ledger
  import opened PoolCache
  import opened CacheRaces

  // ---------------------------------------------------------------------------------------------
  // Each version is the one before with one request served
  // ---------------------------------------------------------------------------------------------

  /** Version `w` comes from committing `r` on version `v`. */
  ghost predicate Follows(v: Version, r: Request, position: nat, w: Version) {
    w == After(v, r, position, w.tables) && w.tables.pools == Serve(v.tables, r).tables.pools
  }

  ghost predicate Sequenced(s: State) {
    && |s.versions| == |s.commits| + 1 && s.versions[0] == Version(EMPTY_TABLES, [])
    && forall i :: 0 <= i < |s.commits| ==> Follows(s.versions[i], s.commits[i].request, s.commits[i].position, s.versions[i + 1])
  }

  lemma SequencedKept(ttl: nat, s: State, s': State)
    requires Sequenced(s) && Next(ttl, s, s')
    ensures Sequenced(s')
  {
    var m :| Can(ttl, s, m) && s' == Do(ttl, s, m);
    if m.Write? {
      SequencedWrite(ttl, s, m);
    } else {
      assert s'.versions == s.versions && |s'.commits| == |s.commits|;
      assert forall i :: 0 <= i < |s.commits| ==> s'.commits[i].request == s.commits[i].request && s'.commits[i].position == s.commits[i].position;
    }
    hide Do, Can, Follows;
  }

  lemma SequencedWrite(ttl: nat, s: State, m: Move)
    requires Sequenced(s) && m.Write? && Can(ttl, s, m)
    ensures Sequenced(Do(ttl, s, m))
  {
    hide Serve, DeletedAfter, Inserted;
  }

  lemma {:induction false} RunsAreSequenced(ttl: nat, trace: seq<State>, n: nat)
    requires Run(ttl, trace) && n < |trace|
    ensures Sequenced(trace[n])
  {
    hide Next;
    if n > 0 {
      RunsAreSequenced(ttl, trace, n - 1);
      SequencedKept(ttl, trace[n - 1], trace[n]);
    }
    hide Sequenced;
  }

  // ---------------------------------------------------------------------------------------------
  // What has moved in a pool
  // ---------------------------------------------------------------------------------------------

  /** Stock contributed to a pool, taken by orders, and given back by releases. */
  datatype Flow = Given | Taken | Back

  /** What one request moves. */
  ghost function Moves(f: Flow, t: Tables, r: Request, pid: PoolId): nat {
    var o := Serve(t, r).outcome;
    match f
    case Given => if r.Contribute? && r.pid == pid && o == Contributed then r.qty else 0
    case Taken => if r.PlaceOrder? && r.pid == pid && o.Placed? then r.qty else 0
    case Back => if r.ExpireOrder? && o == Released && r.oid in t.orders && t.orders[r.oid].pool == pid then t.orders[r.oid].qty else 0
  }

  ghost predicate Closes(t: Tables, r: Request, pid: PoolId) {
    r == ClosePool(pid) && Serve(t, r).outcome == Closed
  }

  lemma OrderMoves(t: Tables, r: Request, pid: PoolId)
    requires r.PlaceOrder? && pid in t.pools
    ensures var u := Serve(t, r).tables.pools;
            pid in u && u[pid] == t.pools[pid].(available := t.pools[pid].available - Moves(Taken, t, r, pid))
  {
  }

  lemma ExpiryMoves(t: Tables, r: Request, pid: PoolId)
    requires r.ExpireOrder? && pid in t.pools
    ensures var u := Serve(t, r).tables.pools;
            pid in u && u[pid] == t.pools[pid].(available := t.pools[pid].available + Moves(Back, t, r, pid))
  {
  }

  lemma PoolMoves(t: Tables, r: Request, pid: PoolId)
    requires pid in t.pools
    ensures var u, pool := Serve(t, r).tables.pools, t.pools[pid];
            && pid in u
            && u[pid] == Pool(pool.price, pool.total + Moves(Given, t, r, pid),
                           pool.available + Moves(Given, t, r, pid) - Moves(Taken, t, r, pid) + Moves(Back, t, r, pid),
                           pool.open && !Closes(t, r, pid))
            && (Closes(t, r, pid) ==> pool.open)
  {
    if r.PlaceOrder? {
      OrderMoves(t, r, pid);
      hide Serve;
    } else if r.ExpireOrder? {
      ExpiryMoves(t, r, pid);
      hide Serve;
    } else if r.Webhook? {
      WebhookWritesNoPool(t, r);
    } else {
      hide Ordered, PayoutsFor, Revenue;
    }
  }

  /** What the commits from version `v` up to version `w` moved. */
  ghost function Moved(s: State, f: Flow, pid: PoolId, v: nat, w: nat): nat {
    if v >= w || w > |s.commits| || w > |s.versions| then 0 else
      Moved(s, f, pid, v, w - 1) + Moves(f, s.versions[w - 1].tables, s.commits[w - 1].request, pid)
  }

  ghost predicate ClosedBy(s: State, pid: PoolId, i: nat) {
    i < |s.commits| && i < |s.versions| && Closes(s.versions[i].tables, s.commits[i].request, pid)
  }

  ghost predicate ClosedSince(s: State, pid: PoolId, v: nat, w: nat) {
    exists i: nat :: v <= i < w && ClosedBy(s, pid, i)
  }

  lemma PoolStep(s: State, pid: PoolId, k: nat)
    requires Sequenced(s) && k < |s.commits| && pid in s.versions[k].tables.pools
    ensures var t, r, p := s.versions[k].tables, s.commits[k].request, s.versions[k + 1].tables.pools;
            var pool := t.pools[pid];
            && pid in p
            && p[pid] == Pool(pool.price, pool.total + Moves(Given, t, r, pid),
                           pool.available + Moves(Given, t, r, pid) - Moves(Taken, t, r, pid) + Moves(Back, t, r, pid),
                           pool.open && !ClosedBy(s, pid, k))
            && (ClosedBy(s, pid, k) ==> pool.open)
  {
    PoolMoves(s.versions[k].tables, s.commits[k].request, pid);
    assert Follows(s.versions[k], s.commits[k].request, s.commits[k].position, s.versions[k + 1]);
    hide Moves, Closes, Serve, After;
  }

  lemma ClosedSinceStep(s: State, pid: PoolId, v: nat, w: nat)
    requires v < w
    ensures ClosedSince(s, pid, v, w) <==> ClosedSince(s, pid, v, w - 1) || ClosedBy(s, pid, w - 1)
  {
    hide ClosedBy;
  }

  lemma {:induction false} PoolSince(s: State, pid: PoolId, v: nat, w: nat)
    requires Sequenced(s) && v <= w <= |s.commits| && pid in s.versions[v].tables.pools
    ensures var p, pool := s.versions[w].tables.pools, s.versions[v].tables.pools[pid];
            && pid in p
            && p[pid] == Pool(pool.price, pool.total + Moved(s, Given, pid, v, w),
                           pool.available + Moved(s, Given, pid, v, w) - Moved(s, Taken, pid, v, w) + Moved(s, Back, pid, v, w),
                           pool.open && !ClosedSince(s, pid, v, w))
            && (ClosedSince(s, pid, v, w) ==> pool.open)
  {
    hide Moves, Closes, Serve;
    if v < w {
      PoolSince(s, pid, v, w - 1);
      PoolStep(s, pid, w - 1);
      ClosedSinceStep(s, pid, v, w);
      assert |s.versions| == |s.commits| + 1;
      hide ClosedSince, ClosedBy, Sequenced;
    }
  }

  /** Contributed to or closed since, or the orders placed and released since do not balance. */
  ghost predicate Shifted(s: State, pid: PoolId, v: nat) {
    var w := |s.commits|;
    || Moved(s, Given, pid, v, w) > 0
    || ClosedSince(s, pid, v, w)
    || Moved(s, Taken, pid, v, w) != Moved(s, Back, pid, v, w)
  }

  /** A pool's row differs from what it was exactly when it has shifted. */
  lemma RowDiffers(s: State, pid: PoolId, v: nat)
    requires Sequenced(s) && v <= |s.commits| && pid in s.versions[v].tables.pools
    ensures pid in Latest(s).tables.pools
    ensures Latest(s).tables.pools[pid] != s.versions[v].tables.pools[pid] <==> Shifted(s, pid, v)
  {
    PoolSince(s, pid, v, |s.commits|);
    hide Moved, ClosedSince;
  }

  // ---------------------------------------------------------------------------------------------
  // Listings
  // ---------------------------------------------------------------------------------------------

  /** The pool is listed. */
  predicate Listed(pools: map<PoolId, Pool>, filter: Filter, pid: PoolId) {
    pid in pools && Matches(filter, pools[pid])
  }

  lemma {:induction false} SelectAppend(pools: map<PoolId, Pool>, a: seq<PoolId>, b: seq<PoolId>, filter: Filter)
    ensures Select(pools, a + b, filter) == Select(pools, a, filter) + Select(pools, b, filter)
  {
    if a == [] {
      assert a + b == b;
    } else {
      SelectAppend(pools, a[1..], b, filter);
      assert (a + b)[0] == a[0] && (a + b)[1..] == a[1..] + b;
      SelectCons(pools, a, filter);
      SelectCons(pools, a + b, filter);
      hide Select, Listed;
    }
  }

  lemma SelectCons(pools: map<PoolId, Pool>, a: seq<PoolId>, filter: Filter)
    requires a != []
    ensures Select(pools, a, filter)
         == (if Listed(pools, filter, a[0]) then [PoolOut(a[0], pools[a[0]])] else []) + Select(pools, a[1..], filter)
  {
  }

  lemma SelectBetween(pools: map<PoolId, Pool>, a: seq<PoolId>, pid: PoolId, b: seq<PoolId>, filter: Filter)
    requires !Listed(pools, filter, pid)
    ensures Select(pools, a + [pid] + b, filter) == Select(pools, a + b, filter)
  {
    SelectAppend(pools, a, b, filter);
    SelectAppend(pools, a + [pid], b, filter);
    SelectAppend(pools, a, [pid], filter);
    assert Select(pools, [pid], filter) == [];
    hide Select;
  }

  lemma InsertUnlisted(pools: map<PoolId, Pool>, newest: seq<PoolId>, position: nat, pid: PoolId, filter: Filter)
    requires !Listed(pools, filter, pid)
    ensures Select(pools, Inserted(newest, position, pid), filter) == Select(pools, newest, filter)
  {
    hide Select, Listed;
    if position <= |newest| {
      SelectBetween(pools, newest[..position], pid, newest[position..], filter);
      assert newest[..position] + newest[position..] == newest;
    } else {
      SelectBetween(pools, newest, pid, [], filter);
      assert newest + [] == newest && newest + [pid] + [] == newest + [pid];
    }
  }

  lemma {:induction false} SelectSame(p: map<PoolId, Pool>, q: map<PoolId, Pool>, newest: seq<PoolId>, filter: Filter)
    requires forall pid :: pid in newest ==> Listed(p, filter, pid) == Listed(q, filter, pid) && (Listed(p, filter, pid) ==> p[pid] == q[pid])
    ensures Select(p, newest, filter) == Select(q, newest, filter)
  {
    if newest != [] {
      assert newest[0] in newest;
      SelectSame(p, q, newest[1..], filter);
    }
  }

  /** A new pool is new, and pools are never deleted. */
  lemma {:induction false} PoolsStay(s: State, v: nat, w: nat)
    requires Sequenced(s) && v <= w <= |s.commits|
    ensures s.versions[v].tables.pools.Keys <= s.versions[w].tables.pools.Keys
  {
    forall pid | pid in s.versions[v].tables.pools
      ensures pid in s.versions[w].tables.pools
    {
      PoolSince(s, pid, v, w);
    }
  }

  /** Pools created since that are not listed do not show. */
  lemma {:induction false} SelectStays(s: State, pools: map<PoolId, Pool>, filter: Filter, v: nat, w: nat)
    requires Sequenced(s) && v <= w <= |s.commits|
    requires forall pid :: pid !in s.versions[v].tables.pools ==> !Listed(pools, filter, pid)
    ensures Select(pools, s.versions[w].newest, filter) == Select(pools, s.versions[v].newest, filter)
  {
    if v < w {
      SelectStays(s, pools, filter, v, w - 1);
      PoolsStay(s, v, w - 1);
      var t, c := s.versions[w - 1], s.commits[w - 1];
      if c.request.CreatePool? && Serve(t.tables, c.request).outcome == PoolCreated {
        InsertUnlisted(pools, t.newest, c.position, c.request.pid, filter);
      }
    }
  }

  /** Each version lists each of its pools once. */
  lemma {:induction false} VersionsAged(s: State, w: nat)
    requires Sequenced(s) && w <= |s.commits|
    ensures Aged(s.versions[w].newest, s.versions[w].tables.pools)
  {
    if w > 0 {
      VersionsAged(s, w - 1);
      AfterAged(s.versions[w - 1], s.commits[w - 1].request, s.commits[w - 1].position, s.versions[w]);
      hide Follows, Aged;
    }
  }

  lemma AfterAged(v: Version, r: Request, position: nat, w: Version)
    requires Aged(v.newest, v.tables.pools) && Follows(v, r, position, w)
    ensures Aged(w.newest, w.tables.pools)
  {
    WritesOnePool(v.tables, r);
    if !r.CreatePool? {
      hide Serve;
    }
  }

  /** Who is listed where: a row of a listing is the row of a listed pool. */
  lemma ListedShows(s: State, v: nat, filter: Filter, pid: PoolId, pool: Pool)
    requires Sequenced(s) && v <= |s.commits|
    ensures PoolOut(pid, pool) in Select(s.versions[v].tables.pools, s.versions[v].newest, filter)
      <==> Listed(s.versions[v].tables.pools, filter, pid) && s.versions[v].tables.pools[pid] == pool
  {
    VersionsAged(s, v);
    SelectMeaning(s.versions[v].tables.pools, s.versions[v].newest, filter);
  }

  /** Something listed then or now is new since, or has shifted. */
  ghost predicate ListingShifted(s: State, filter: Filter, v: nat)
    requires v < |s.versions|
  {
    var was, now := s.versions[v].tables.pools, Latest(s).tables.pools;
    exists pid :: (Listed(was, filter, pid) || Listed(now, filter, pid)) && (pid in was ==> Shifted(s, pid, v))
  }

  lemma ListingShows(s: State, filter: Filter, v: nat, pid: PoolId)
    requires Sequenced(s) && v <= |s.commits|
    requires Listed(s.versions[v].tables.pools, filter, pid) || Listed(Latest(s).tables.pools, filter, pid)
    requires pid in s.versions[v].tables.pools ==> Shifted(s, pid, v)
    ensures Look(Latest(s), Listing(filter)) != Look(s.versions[v], Listing(filter))
  {
    var was, now := s.versions[v].tables.pools, Latest(s).tables.pools;
    var row := if Listed(was, filter, pid) then was[pid] else now[pid];
    ListedShows(s, v, filter, pid, row);
    ListedShows(s, |s.commits|, filter, pid, row);
    if pid in was {
      RowDiffers(s, pid, v);
    }
    hide Sequenced, Shifted, Select;
  }

  lemma ListingDiffers(s: State, filter: Filter, v: nat)
    requires Sequenced(s) && v <= |s.commits|
    ensures Look(Latest(s), Listing(filter)) != Look(s.versions[v], Listing(filter)) <==> ListingShifted(s, filter, v)
  {
    var was, now := s.versions[v].tables.pools, Latest(s).tables.pools;
    if pid :| (Listed(was, filter, pid) || Listed(now, filter, pid)) && (pid in was ==> Shifted(s, pid, v)) {
      ListingShows(s, filter, v, pid);
    } else {
      assert !ListingShifted(s, filter, v);
      forall pid | pid in was
        ensures Listed(now, filter, pid) == Listed(was, filter, pid) && (Listed(now, filter, pid) ==> now[pid] == was[pid])
      {
        RowDiffers(s, pid, v);
      }
      VersionsAged(s, v);
      SelectStays(s, now, filter, v, |s.commits|);
      SelectSame(now, was, s.versions[v].newest, filter);
    }
  }

  // ---------------------------------------------------------------------------------------------
  // The cache
  // ---------------------------------------------------------------------------------------------

  ghost predicate KeyShifted(s: State, key: CacheKey, v: nat)
    requires v < |s.versions|
  {
    match key
    case Single(pid) => Shifted(s, pid, v)
    case Listing(filter) => ListingShifted(s, filter, v)
  }

  /** A cached pool is stale exactly when, since it was read, it was contributed to or closed or the
      orders placed and released do not balance; a cached listing exactly when this is so of a pool
      that it shows or should show, or such a pool is new. */
  lemma StaleExactlyWhen(ttl: nat, trace: seq<State>, n: nat, key: CacheKey)
    requires Run(ttl, trace) && n < |trace| && key in trace[n].cache
    ensures var s := trace[n]; var v := s.cache[key].reading.version;
            v < |s.versions| && (Stale(s, key) <==> KeyShifted(s, key, v))
  {
    var s := trace[n];
    RunsKeep(ttl, trace, n);
    RunsAreSequenced(ttl, trace, n);
    var c := s.cache[key];
    assert Genuine(s, key, c.reading) && c.reading.value != NotFound;
    hide Inv, Run;
    match key
    case Single(pid) => RowDiffers(s, pid, c.reading.version);
    case Listing(filter) => ListingDiffers(s, filter, c.reading.version);
  }

  /** If at most one commit since changed what is read under the key, the entry is stale exactly when
      one did. */
  lemma StaleAfterOneChange(ttl: nat, trace: seq<State>, n: nat, key: CacheKey)
    requires Run(ttl, trace) && n < |trace| && key in trace[n].cache
    requires forall i, j :: trace[n].cache[key].reading.version <= i < j ==> !(Changes(trace[n], key, i) && Changes(trace[n], key, j))
    ensures Stale(trace[n], key) <==> exists i :: trace[n].cache[key].reading.version <= i && Changes(trace[n], key, i)
  {
    var s := trace[n];
    RunsKeep(ttl, trace, n);
    var v, w := s.cache[key].reading.version, |s.commits|;
    assert Genuine(s, key, s.cache[key].reading);
    hide Run, Look;
    if Stale(s, key) {
      var i := FirstChange(s, key, v, w);
    } else if i :| v <= i && Changes(s, key, i) {
      Unchanged(s, key, v, i);
      Unchanged(s, key, i + 1, w);
      assert false;
    }
  }

  lemma Unchanged(s: State, key: CacheKey, v: nat, w: nat)
    requires v <= w < |s.versions| && forall i :: v <= i < w ==> !Changes(s, key, i)
    ensures Look(s.versions[w], key) == Look(s.versions[v], key)
  {
    if Look(s.versions[w], key) != Look(s.versions[v], key) {
      var i := FirstChange(s, key, v, w);
    }
  }
}
