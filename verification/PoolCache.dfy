/** The pool cache (app/features/pools/service.py with app/core/cache.py): cache-aside reads with a
    time to live, and the writers that invalidate it after their commit. */
module PoolCache {
  import opened Common
  import opened PayoutSplit
  import opened Ledger
  import opened Services

  datatype Filter = AllPools | OpenPools | ClosedPools

  /** The three listings and the entry of one pool. */
  datatype CacheKey = Listing(filter: Filter) | Single(pid: PoolId)

  datatype PoolOut = PoolOut(pid: PoolId, pool: Pool)

  /** What a read returns: the rows of a listing, one pool, or PoolNotFound. */
  datatype Value = Rows(rows: seq<PoolOut>) | Row(row: PoolOut) | NotFound

  /** A cached value and when it expires. */
  datatype Entry = Entry(value: Value, until: int)

  predicate Matches(filter: Filter, pool: Pool) {
    match filter
    case AllPools => true
    case OpenPools => pool.open
    case ClosedPools => !pool.open
  }

  /** SELECT ... WHERE status = ... ORDER BY created_at DESC, given the pools by age. */
  function Select(pools: map<PoolId, Pool>, newest: seq<PoolId>, filter: Filter): seq<PoolOut> {
    if newest == [] then [] else
      (if newest[0] in pools && Matches(filter, pools[newest[0]]) then [PoolOut(newest[0], pools[newest[0]])] else [])
      + Select(pools, newest[1..], filter)
  }

  /** `newest` lists every pool once. */
  ghost predicate Aged(newest: seq<PoolId>, pools: map<PoolId, Pool>) {
    && (forall pid :: pid in newest <==> pid in pools)
    && forall i, j :: 0 <= i < j < |newest| ==> newest[i] != newest[j]
  }

  /** `p` comes before `q` in this order. */
  ghost predicate Precedes(newest: seq<PoolId>, p: PoolId, q: PoolId) {
    exists a, b :: 0 <= a < b < |newest| && newest[a] == p && newest[b] == q
  }

  /** The rows are the pools of the status asked for, all pools if none was, as they are, each once and
      in this order. */
  ghost predicate Shows(pools: map<PoolId, Pool>, newest: seq<PoolId>, filter: Filter, rows: seq<PoolOut>) {
    && (forall pid, pool :: PoolOut(pid, pool) in rows <==>
          && pid in newest && pid in pools && pool == pools[pid]
          && (filter == AllPools || (filter == OpenPools && pool.open) || (filter == ClosedPools && !pool.open)))
    && (forall i, j :: 0 <= i < j < |rows| ==> rows[i].pid != rows[j].pid)
    && InThatOrder(newest, rows)
  }

  ghost predicate InThatOrder(newest: seq<PoolId>, rows: seq<PoolOut>) {
    forall i, j :: 0 <= i < j < |rows| ==> Precedes(newest, rows[i].pid, rows[j].pid)
  }

  lemma {:induction false} SelectMeaning(pools: map<PoolId, Pool>, newest: seq<PoolId>, filter: Filter)
    requires forall i, j :: 0 <= i < j < |newest| ==> newest[i] != newest[j]
    ensures Shows(pools, newest, filter, Select(pools, newest, filter))
  {
    SelectKeepsOrder(pools, newest, filter);
    hide InThatOrder;
    if newest != [] {
      var rest := Select(pools, newest[1..], filter);
      SelectMeaning(pools, newest[1..], filter);
      assert newest[0] !in newest[1..];
      forall j | 0 <= j < |rest|
        ensures rest[j].pid in newest[1..]
      {
        assert PoolOut(rest[j].pid, rest[j].pool) in rest;
      }
    }
  }

  lemma {:induction false} SelectKeepsOrder(pools: map<PoolId, Pool>, newest: seq<PoolId>, filter: Filter)
    ensures InThatOrder(newest, Select(pools, newest, filter))
    ensures forall row :: row in Select(pools, newest, filter) ==> row.pid in newest
  {
    if newest != [] {
      var rest := Select(pools, newest[1..], filter);
      SelectKeepsOrder(pools, newest[1..], filter);
      forall row | row in rest
        ensures Precedes(newest, newest[0], row.pid)
      {
        var b :| 0 <= b < |newest[1..]| && newest[1..][b] == row.pid;
        assert newest[b + 1] == row.pid;
      }
      forall p, q | Precedes(newest[1..], p, q)
        ensures Precedes(newest, p, q)
      {
        var a, b :| 0 <= a < b < |newest[1..]| && newest[1..][a] == p && newest[1..][b] == q;
        assert newest[a + 1] == p && newest[b + 1] == q;
      }
      hide Precedes;
    }
  }

  /** The uncached read. */
  function Uncached(pools: map<PoolId, Pool>, newest: seq<PoolId>, key: CacheKey): Value {
    match key
    case Listing(filter) => Rows(Select(pools, newest, filter))
    case Single(pid) => if pid in pools then Row(PoolOut(pid, pools[pid])) else NotFound
  }

  /** invalidate_pool_cache: the keys it deletes. */
  function Invalidated(pid: Option<PoolId>): set<CacheKey> {
    {Listing(AllPools), Listing(OpenPools), Listing(ClosedPools)} + if pid.Some? then {Single(pid.value)} else {}
  }

  /** The pool whose row a request has written. */
  function WrittenPool(t: Tables, r: Request): Option<PoolId> {
    match r
    case CreatePool(pid, _) => Some(pid)
    case Contribute(pid, _, _) => Some(pid)
    case ClosePool(pid) => Some(pid)
    case PlaceOrder(_, _, pid, _, _, _) => Some(pid)
    case ExpireOrder(oid, _) => if oid in t.orders then Some(t.orders[oid].pool) else None
    case Webhook(_, _, _, _, _) => None
    case Distribute(_, _) => None
  }

  /** The outcomes after which a service invalidates. */
  predicate Invalidates(o: Outcome) {
    o.PoolCreated? || o.Contributed? || o.Closed? || o.Placed? || o.Released?
  }

  /** A request changes no pool row but the one it has written, and none at all unless it ends in one
      of the five outcomes after which the service invalidates. */
  lemma WritesOnePool(t: Tables, r: Request)
    ensures var u := Serve(t, r).tables;
            && (!Invalidates(Serve(t, r).outcome) ==> u.pools == t.pools)
            && (WrittenPool(t, r).None? ==> u.pools == t.pools)
            && (!r.CreatePool? ==> u.pools.Keys == t.pools.Keys)
            && forall pid :: Some(pid) != WrittenPool(t, r) ==> (pid in u.pools <==> pid in t.pools) && (pid in t.pools ==> u.pools[pid] == t.pools[pid])
  {
    hide Ordered, PayoutsFor, Revenue;
    match r
    case PlaceOrder(_, _, _, _, _, _) => OrderWritesOnePool(t, r);
    case Webhook(_, _, _, _, _) => WebhookWritesNoPool(t, r);
    case ExpireOrder(_, _) => ExpiryWritesOnePool(t, r);
    case _ =>
  }

  lemma OrderWritesOnePool(t: Tables, r: Request)
    requires r.PlaceOrder?
    ensures var u := ServeOrder(t, r).tables;
            && (!ServeOrder(t, r).outcome.Placed? ==> u.pools == t.pools) && u.pools.Keys == t.pools.Keys
            && forall pid :: pid != r.pid ==> (pid in u.pools <==> pid in t.pools) && (pid in t.pools ==> u.pools[pid] == t.pools[pid])
  {
  }

  lemma WebhookWritesNoPool(t: Tables, r: Request)
    requires r.Webhook?
    ensures ServeWebhook(t, r).tables.pools == t.pools
  {
  }

  lemma ExpiryWritesOnePool(t: Tables, r: Request)
    requires r.ExpireOrder?
    ensures var u := ServeExpiry(t, r).tables;
            && (!ServeExpiry(t, r).outcome.Released? ==> u.pools == t.pools) && u.pools.Keys == t.pools.Keys
            && forall pid :: (r.oid in t.orders && pid == t.orders[r.oid].pool) || ((pid in u.pools <==> pid in t.pools) && (pid in t.pools ==> u.pools[pid] == t.pools[pid]))
  {
  }

  // ---------------------------------------------------------------------------------------------
  // Calls that do not overlap
  // ---------------------------------------------------------------------------------------------

  /** Every entry, expired or not, is what the uncached read would return; a missing pool is never
      cached. */
  ghost predicate Coherent(cache: map<CacheKey, Entry>, pools: map<PoolId, Pool>, newest: seq<PoolId>) {
    forall key :: key in cache ==> cache[key].value == Uncached(pools, newest, key) && cache[key].value != NotFound
  }

  lemma FillKeepsCoherent(cache: map<CacheKey, Entry>, pools: map<PoolId, Pool>, newest: seq<PoolId>, key: CacheKey, entry: Entry)
    requires Coherent(cache, pools, newest) && entry.value == Uncached(pools, newest, key) && entry.value != NotFound
    ensures Coherent(cache[key := entry], pools, newest)
  {
  }

  /** Deleting the listings and the entry of the written pool is enough. */
  lemma InvalidationKeepsCoherent(cache: map<CacheKey, Entry>, t: Tables, newest: seq<PoolId>, r: Request)
    requires Coherent(cache, t.pools, newest) && WrittenPool(t, r).Some?
    ensures Coherent(cache - Invalidated(WrittenPool(t, r)), Serve(t, r).tables.pools, newest)
    ensures !r.CreatePool? ==> Serve(t, r).tables.pools.Keys == t.pools.Keys
  {
    WritesOnePool(t, r);
    hide Serve;
    forall key | key in cache - Invalidated(WrittenPool(t, r))
      ensures cache[key].value == Uncached(Serve(t, r).tables.pools, newest, key)
    {
      EveryListingInvalidated(key, WrittenPool(t, r));
      assert cache[key].value == Uncached(t.pools, newest, key);
    }
  }

  lemma EveryListingInvalidated(key: CacheKey, pid: Option<PoolId>)
    requires key !in Invalidated(pid)
    ensures key.Single? && pid != Some(key.pid)
  {
    match key
    case Listing(AllPools) =>
    case Listing(OpenPools) =>
    case Listing(ClosedPools) =>
    case Single(_) =>
  }

  /** create_pool may leave the entry of its own pool alone: there is none. */
  lemma CreationKeepsCoherent(cache: map<CacheKey, Entry>, t: Tables, newest: seq<PoolId>, pid: PoolId, price: nat)
    requires Coherent(cache, t.pools, newest) && pid !in t.pools
    ensures Coherent(cache - Invalidated(None), Serve(t, CreatePool(pid, price)).tables.pools, [pid] + newest)
  {
    var u := Serve(t, CreatePool(pid, price)).tables;
    forall key | key in cache - Invalidated(None)
      ensures cache[key].value == Uncached(u.pools, [pid] + newest, key)
    {
      EveryListingInvalidated(key, None);
      assert cache[key].value == Uncached(t.pools, newest, key);
    }
  }

  /** Nothing was written: nothing to invalidate. */
  lemma NothingWritten(cache: map<CacheKey, Entry>, t: Tables, newest: seq<PoolId>, r: Request)
    requires Coherent(cache, t.pools, newest) && !Invalidates(Serve(t, r).outcome)
    ensures Coherent(cache, Serve(t, r).tables.pools, newest)
  {
    WritesOnePool(t, r);
    hide Serve;
  }

  /** A release deletes what is cached of the order's pool, if there is such a pool. */
  lemma ReleaseKeepsCoherent(cache: map<CacheKey, Entry>, t: Tables, newest: seq<PoolId>, r: Request)
    requires r.ExpireOrder? && Coherent(cache, t.pools, newest)
    ensures var served, pid := Serve(t, r), WrittenPool(t, r);
            && Coherent(if served.outcome == Released && pid.Some? && pid.value in t.pools then cache - Invalidated(pid) else cache,
                 served.tables.pools, newest)
            && served.tables.pools.Keys == t.pools.Keys
  {
    ReleaseOfMissingPool(t, r);
    WritesOnePool(t, r);
    if Invalidates(Serve(t, r).outcome) {
      InvalidationKeepsCoherent(cache, t, newest, r);
    }
    hide Serve, Coherent;
  }

  lemma ReleaseOfMissingPool(t: Tables, r: Request)
    requires r.ExpireOrder?
    ensures Serve(t, r).outcome == Released || Serve(t, r) == Served(t, Skipped)
    ensures Serve(t, r).outcome == Released ==>
              r.oid in t.orders && (t.orders[r.oid].pool !in t.pools ==> Serve(t, r).tables.pools == t.pools)
  {
  }

  /** The pools feature with its cache, over the database of module Services. */
  class CachedPools {
    const db: Database
    const ttl: nat

    /** The pools by created_at, newest first. */
    var newest: seq<PoolId>
    var cache: map<CacheKey, Entry>

    ghost predicate Valid()
      reads this, db, db.rows
    {
      db.Valid() && this !in db.rows && Aged(newest, db.contents.pools) && Coherent(cache, db.contents.pools, newest)
    }

    constructor (db: Database, ttl: nat)
      requires db.Valid() && db.contents == EMPTY_TABLES && db.rows == {}
      ensures Valid() && this.db == db && this.ttl == ttl
    {
      this.db, this.ttl := db, ttl;
      newest, cache := [], map[];
    }

    method InvalidatePoolCache(pid: Option<PoolId>)
      modifies this`cache
      ensures cache == old(cache) - Invalidated(pid)
    {
      cache := cache - Invalidated(pid);
    }

    method CreatePool(pid: PoolId, price: nat) returns (outcome: Outcome)
      requires Valid()
      modifies this, db
      ensures Valid() && fresh(db.rows - old(db.rows))
      ensures Served(db.contents, outcome) == old(Serve(db.contents, Request.CreatePool(pid, price)))
      ensures newest == if outcome == PoolCreated then [pid] + old(newest) else old(newest)
    {
      ghost var t := db.contents;
      outcome := db.CreatePool(pid, price);
      if outcome == PoolCreated {
        newest := [pid] + newest;
        InvalidatePoolCache(None);
        CreationKeepsCoherent(old(cache), t, old(newest), pid, price);
      }
    }

    method ClosePool(pid: PoolId) returns (outcome: Outcome)
      requires Valid()
      modifies this, db, db.rows
      ensures Valid() && newest == old(newest)
      ensures Served(db.contents, outcome) == old(Serve(db.contents, Request.ClosePool(pid)))
    {
      ghost var t, r := db.contents, Request.ClosePool(pid);
      outcome := db.ClosePool(pid);
      if outcome == Closed {
        InvalidatePoolCache(Some(pid));
        InvalidationKeepsCoherent(old(cache), t, newest, r);
      } else {
        NothingWritten(old(cache), t, newest, r);
      }
    }

    method CreateContribution(pid: PoolId, farmer: FarmerId, qty: Qty) returns (outcome: Outcome)
      requires Valid()
      modifies this, db, db.rows
      ensures Valid() && newest == old(newest)
      ensures Served(db.contents, outcome) == old(Serve(db.contents, Contribute(pid, farmer, qty)))
    {
      ghost var t, r := db.contents, Contribute(pid, farmer, qty);
      outcome := db.CreateContribution(pid, farmer, qty);
      if outcome == Contributed {
        InvalidatePoolCache(Some(pid));
        InvalidationKeepsCoherent(old(cache), t, newest, r);
      } else {
        NothingWritten(old(cache), t, newest, r);
      }
    }

    method CreateOrder(oid: OrderId, buyer: BuyerId, pid: PoolId, qty: Qty, key: Option<string>, now: int)
      returns (outcome: Outcome)
      requires Valid()
      modifies this, db, db.rows
      ensures Valid() && newest == old(newest) && fresh(db.rows - old(db.rows))
      ensures Served(db.contents, outcome) == old(Serve(db.contents, PlaceOrder(oid, buyer, pid, qty, key, now)))
    {
      ghost var t, r := db.contents, PlaceOrder(oid, buyer, pid, qty, key, now);
      outcome := db.CreateOrder(oid, buyer, pid, qty, key, now);
      if outcome.Placed? {
        InvalidatePoolCache(Some(pid));
        InvalidationKeepsCoherent(old(cache), t, newest, r);
      } else {
        NothingWritten(old(cache), t, newest, r);
      }
    }

    method ReleaseOneExpiredOrder(oid: OrderId, cutoff: int) returns (released: bool)
      requires Valid()
      modifies this, db, db.rows
      ensures Valid() && newest == old(newest)
      ensures Served(db.contents, if released then Released else Skipped) == old(Serve(db.contents, ExpireOrder(oid, cutoff)))
    {
      ghost var t, r := db.contents, ExpireOrder(oid, cutoff);
      var pid := PoolOf(oid);
      ReleaseKeepsCoherent(cache, t, newest, r);
      released := db.ReleaseOneExpiredOrder(oid, cutoff);
      InvalidateAfterRelease(released, pid);
    }

    /** The pool of a released order is looked up before its entry is deleted. */
    method InvalidateAfterRelease(released: bool, pid: Option<PoolId>)
      requires db.Valid()
      modifies this`cache
      ensures cache == if released && pid.Some? && pid.value in db.contents.pools then old(cache) - Invalidated(pid) else old(cache)
    {
      if released && pid.Some? && pid.value in db.pools {
        InvalidatePoolCache(pid);
      }
    }

    /** The pool an order row names. */
    method PoolOf(oid: OrderId) returns (pid: Option<PoolId>)
      requires db.Valid()
      ensures pid == if oid in db.contents.orders then Some(db.contents.orders[oid].pool) else None
    {
      if oid !in db.orders {
        return None;
      }
      var order := db.orders[oid];
      assert order.Value() == db.contents.orders[oid];
      return Some(order.pool);
    }

    /** list_pools */
    method ListPools(filter: Filter, now: int) returns (rows: seq<PoolOut>)
      requires Valid()
      modifies this`cache
      ensures Valid()
      ensures rows == Select(db.contents.pools, newest, filter) && Shows(db.contents.pools, newest, filter, rows)
      ensures var key := Listing(filter);
              cache == if key in old(cache) && now < old(cache)[key].until then old(cache)
                       else old(cache)[key := Entry(Rows(rows), now + ttl)]
    {
      SelectMeaning(db.contents.pools, newest, filter);
      var key := Listing(filter);
      if key in cache && now < cache[key].until {
        return cache[key].value.rows;
      }
      rows := ReadRows(filter);
      FillKeepsCoherent(cache, db.contents.pools, newest, key, Entry(Rows(rows), now + ttl));
      cache := cache[key := Entry(Rows(rows), now + ttl)];
    }

    /** The SELECT of list_pools. */
    method ReadRows(filter: Filter) returns (rows: seq<PoolOut>)
      requires Valid()
      ensures rows == Select(db.contents.pools, newest, filter)
    {
      rows := [];
      var i := |newest|;
      while i > 0
        invariant 0 <= i <= |newest|
        invariant rows == Select(db.contents.pools, newest[i..], filter)
      {
        i := i - 1;
        assert newest[i..][1..] == newest[i + 1..];
        if newest[i] in db.pools {
          var row := db.pools[newest[i]];
          var pool := Pool(row.price, row.total, row.available, row.open);
          assert pool == db.contents.pools[newest[i]];
          if Matches(filter, pool) {
            rows := [PoolOut(newest[i], pool)] + rows;
          }
        }
      }
    }

    /** get_pool */
    method GetPool(pid: PoolId, now: int) returns (found: Value)
      requires Valid()
      modifies this`cache
      ensures Valid()
      ensures found == Uncached(db.contents.pools, newest, Single(pid))
      ensures found == if pid in db.contents.pools then Row(PoolOut(pid, db.contents.pools[pid])) else NotFound
      ensures var key := Single(pid);
              cache == if found == NotFound || (key in old(cache) && now < old(cache)[key].until) then old(cache)
                       else old(cache)[key := Entry(found, now + ttl)]
    {
      var key := Single(pid);
      if key in cache && now < cache[key].until {
        return cache[key].value;
      }
      if pid !in db.pools {
        return NotFound;
      }
      var row := db.pools[pid];
      found := Row(PoolOut(pid, Pool(row.price, row.total, row.available, row.open)));
      FillKeepsCoherent(cache, db.contents.pools, newest, key, Entry(found, now + ttl));
      cache := cache[key := Entry(found, now + ttl)];
    }
  }
}
