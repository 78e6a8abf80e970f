/** What stands in the tables because of what was asked: in every state of every interleaving, pools,
    orders, releases, contributions and payouts are those of the requests that were told so. */
module Deeds {
  import opened Common
  import opened PayoutSplit
  import opened Ledger
  import opened LedgerLaws
  import opened Meaning
  import opened Transactions
  import opened SerialOrder
  import opened Serializability
  import opened Guarantees
  import opened Answers
  import opened AnswerPlaces

  /** A request that committed was served on some tables, and what that left has only grown since. */
  lemma WriterServed(trace: seq<State>, n: nat, t: TxnId, o: Outcome) returns (before: Tables)
    requires Run(trace) && n < |trace| && CommittedWriter(trace[n], t, o)
    ensures var served := Serve(before, trace[n].txns[t].request);
            served.outcome == o && Grows(served.tables, trace[n].tables)
  {
    var s := trace[n];
    var h := s.history;
    RunsKeep(trace, n);
    hide LocksMatch, AllFit, IdsFresh, EarlyEntries, Run, Serve;
    var i: nat :| EnteredAt(s, t, i);
    assert EntryFits(s, i);
    before := Replay(h[..i]);
    ReplayGrows(h, i + 1, |h|);
    assert h[..i + 1][..i] == h[..i] && h[..|h|] == h;
    hide Grows;
  }

  // ---------------------------------------------------------------------------------------------
  // Pools
  // ---------------------------------------------------------------------------------------------

  ghost predicate Creates(s: State, t: TxnId, pid: PoolId, price: nat) {
    t in s.txns && s.txns[t] == Txn(CreatePool(pid, price), Finished(PoolCreated))
  }

  /** A pool is sold at the price it was created with, for good, and every order of it was charged that
      price times its quantity. */
  lemma PoolIsAsCreated(trace: seq<State>, n: nat, t: TxnId, pid: PoolId, price: nat)
    requires Run(trace) && n < |trace| && Creates(trace[n], t, pid, price)
    ensures var u := trace[n].tables;
            && pid in u.pools && u.pools[pid].price == price
            && forall oid :: oid in u.orders && u.orders[oid].pool == pid ==> u.orders[oid].total == price * u.orders[oid].qty
  {
    var before := WriterServed(trace, n, t, PoolCreated);
    CreatePoolMeaning(before, pid, price);
    RunsStaySound(trace, n);
    assert PricesExact(trace[n].tables) && PoolsKeep(Serve(before, CreatePool(pid, price)).tables, trace[n].tables);
    hide Run, Sound, Serve, Swept, OrdersKeep, FrozenKeep;
  }

  // ---------------------------------------------------------------------------------------------
  // Orders
  // ---------------------------------------------------------------------------------------------

  /** The row of an order is what was asked for, for good, status aside. */
  lemma OrderIsAsPlaced(trace: seq<State>, n: nat, t: TxnId, oid: OrderId)
    requires Run(trace) && n < |trace| && t in trace[n].txns && trace[n].txns[t].request.PlaceOrder?
    requires trace[n].txns[t].pc == Finished(Placed(oid))
    ensures var r, u := trace[n].txns[t].request, trace[n].tables;
            && oid == r.oid && oid in u.orders && r.pid in u.pools
            && u.orders[oid] == Order(r.pid, r.buyer, r.qty, u.pools[r.pid].price * r.qty, u.orders[oid].status, r.key, r.now)
  {
    var r := trace[n].txns[t].request;
    var before := WriterServed(trace, n, t, Placed(oid));
    PlaceOrderMeaning(before, r.oid, r.buyer, r.pid, r.qty, r.key, r.now);
    var after := Serve(before, r).tables;
    assert OrdersKeep(after, trace[n].tables) && PoolsKeep(after, trace[n].tables);
    hide Run, Serve, FrozenKeep;
  }

  /** An expiry that reports a release has found an order placed before its cutoff. */
  lemma ReleasedWasOverdue(trace: seq<State>, n: nat, t: TxnId)
    requires Run(trace) && n < |trace| && t in trace[n].txns && trace[n].txns[t].request.ExpireOrder?
    requires trace[n].txns[t].pc == Finished(Released)
    ensures var r, u := trace[n].txns[t].request, trace[n].tables; r.oid in u.orders && u.orders[r.oid].createdAt < r.cutoff
  {
    var r := trace[n].txns[t].request;
    var before := WriterServed(trace, n, t, Released);
    ExpireOrderMeaning(before, r.oid, r.cutoff);
    var after := Serve(before, r).tables;
    assert OrdersKeep(after, trace[n].tables);
    hide Run, Serve, FrozenKeep, PoolsKeep;
  }

  /** So does every step that releases one. */
  lemma ReleasesAreOverdue(trace: seq<State>, i: nat, t: TxnId)
    requires Run(trace) && i + 1 < |trace| && Releases(trace[i], trace[i + 1], t)
    ensures var r, u := trace[i].txns[t].request, trace[i].tables;
            r.oid in u.orders && u.orders[r.oid].status == Pending && u.orders[r.oid].createdAt < r.cutoff
  {
    SameRequest(trace, i, i + 1, t);
    ReleasedWasOverdue(trace, i + 1, t);
    hide Run;
  }

  /** And one that skips an order has found it settled, released before, or not old enough. */
  lemma SkippedForAReason(trace: seq<State>, n: nat, t: TxnId) returns (i: nat)
    requires Run(trace) && n < |trace| && t in trace[n].txns && trace[n].txns[t].request.ExpireOrder?
    requires trace[n].txns[t].pc == Finished(Skipped)
    ensures i < n && Active(trace[i], t) && t in trace[i + 1].txns && trace[i + 1].txns[t].pc == Finished(Skipped)
    ensures var r, u := trace[n].txns[t].request, trace[i].tables;
            !(r.oid in u.orders && u.orders[r.oid].status == Pending && u.orders[r.oid].createdAt < r.cutoff)
  {
    i := AnsweredAt(trace, n, t, Skipped);
    RunsKeep(trace, i);
    SameRequest(trace, i, n, t);
    AnsweredOnTheSpot(trace[i], t, Skipped);
    ExpireOrderMeaning(trace[i].tables, trace[n].txns[t].request.oid, trace[n].txns[t].request.cutoff);
    hide Run, Inv, Serve, Advance;
  }

  // ---------------------------------------------------------------------------------------------
  // Nothing comes from nowhere
  // ---------------------------------------------------------------------------------------------

  /** Only creating makes a pool, only placing makes an order, and only closing closes a pool. */
  lemma ServeMakes(t: Tables, r: Request)
    ensures var u, o := Serve(t, r).tables, Serve(t, r).outcome;
            && (forall pid :: pid in u.pools && pid !in t.pools ==> r.CreatePool? && r.pid == pid && o == PoolCreated && u.pools[pid].open)
            && (forall oid :: oid in u.orders && oid !in t.orders ==> r.PlaceOrder? && r.oid == oid && o == Placed(oid))
            && (forall pid :: pid in t.pools && t.pools[pid].open && pid in u.pools && !u.pools[pid].open ==> r == ClosePool(pid) && o == Closed)
  {
    hide Ordered, PayoutsFor, Revenue;
  }

  /** The `i`-th entry has created the pool, placed the order, or closed the pool. */
  ghost predicate CreatedAt(h: seq<Entry>, i: nat, pid: PoolId) {
    i < |h| && h[i].done && h[i].outcome == PoolCreated && h[i].request.CreatePool? && h[i].request.pid == pid
  }

  ghost predicate PlacedAt(h: seq<Entry>, i: nat, oid: OrderId) {
    i < |h| && h[i].done && h[i].outcome == Placed(oid) && h[i].request.PlaceOrder? && h[i].request.oid == oid
  }

  ghost predicate ClosedAt(h: seq<Entry>, i: nat, pid: PoolId) {
    i < |h| && h[i].done && h[i].outcome == Closed && h[i].request == ClosePool(pid)
  }

  lemma {:induction false} PoolWasCreated(h: seq<Entry>, pid: PoolId) returns (i: nat)
    requires OutcomesExplained(h) && pid in Replay(h).pools
    ensures CreatedAt(h, i, pid)
  {
    var front, last := h[..|h| - 1], h[|h| - 1];
    OutcomesOfFront(h);
    ServeMakes(Replay(front), last.request);
    hide Serve, OutcomesExplained;
    if last.done && pid !in Replay(front).pools {
      i := |h| - 1;
    } else {
      i := PoolWasCreated(front, pid);
    }
  }

  lemma {:induction false} OrderWasPlaced(h: seq<Entry>, oid: OrderId) returns (i: nat)
    requires OutcomesExplained(h) && oid in Replay(h).orders
    ensures PlacedAt(h, i, oid)
  {
    var front, last := h[..|h| - 1], h[|h| - 1];
    OutcomesOfFront(h);
    ServeMakes(Replay(front), last.request);
    hide Serve, OutcomesExplained;
    if last.done && oid !in Replay(front).orders {
      i := |h| - 1;
    } else {
      i := OrderWasPlaced(front, oid);
    }
  }

  lemma {:induction false} PoolWasClosed(h: seq<Entry>, pid: PoolId) returns (i: nat)
    requires OutcomesExplained(h) && pid in Replay(h).pools && !Replay(h).pools[pid].open
    ensures ClosedAt(h, i, pid)
  {
    var front, last := h[..|h| - 1], h[|h| - 1];
    OutcomesOfFront(h);
    ServeMakes(Replay(front), last.request);
    hide Serve, OutcomesExplained;
    if last.done && (pid !in Replay(front).pools || Replay(front).pools[pid].open) {
      i := |h| - 1;
    } else {
      i := PoolWasClosed(front, pid);
    }
  }

  ghost predicate Places(s: State, t: TxnId, oid: OrderId) {
    t in s.txns && s.txns[t].request.PlaceOrder? && s.txns[t].request.oid == oid && s.txns[t].pc == Finished(Placed(oid))
  }

  ghost predicate Shuts(s: State, t: TxnId, pid: PoolId) {
    t in s.txns && s.txns[t] == Txn(ClosePool(pid), Finished(Closed))
  }

  /** A closing that was reported holds for good. */
  lemma ClosingHolds(trace: seq<State>, n: nat, t: TxnId, pid: PoolId)
    requires Run(trace) && n < |trace| && Shuts(trace[n], t, pid)
    ensures pid in trace[n].tables.pools && !trace[n].tables.pools[pid].open
  {
    var before := WriterServed(trace, n, t, Closed);
    ClosePoolMeaning(before, pid);
    assert PoolsKeep(Serve(before, ClosePool(pid)).tables, trace[n].tables);
    hide Run, Serve, OrdersKeep, FrozenKeep;
  }

  /** In every state: the pools are those that some request was told it created, the closed ones those
      that some request was told it closed, and the orders those that some request was told it placed. */
  lemma NothingFromNowhere(trace: seq<State>, n: nat, pid: PoolId, oid: OrderId)
    requires Run(trace) && n < |trace|
    ensures pid in trace[n].tables.pools <==> exists t, price :: Creates(trace[n], t, pid, price)
    ensures pid in trace[n].tables.pools && !trace[n].tables.pools[pid].open <==> exists t :: Shuts(trace[n], t, pid)
    ensures oid in trace[n].tables.orders <==> exists t :: Places(trace[n], t, oid)
  {
    RunsKeep(trace, n);
    RowsHaveMakers(trace[n], pid, oid);
    hide Inv, Run;
    if t, price :| Creates(trace[n], t, pid, price) {
      PoolIsAsCreated(trace, n, t, pid, price);
    }
    if t :| Shuts(trace[n], t, pid) {
      ClosingHolds(trace, n, t, pid);
    }
    if t :| Places(trace[n], t, oid) {
      OrderIsAsPlaced(trace, n, t, oid);
    }
  }

  lemma RowsHaveMakers(s: State, pid: PoolId, oid: OrderId)
    requires Inv(s)
    ensures pid in s.tables.pools ==> exists t, price :: Creates(s, t, pid, price)
    ensures pid in s.tables.pools && !s.tables.pools[pid].open ==> exists t :: Shuts(s, t, pid)
    ensures oid in s.tables.orders ==> exists t :: Places(s, t, oid)
  {
    var h := s.history;
    hide LocksMatch, AllFit, IdsFresh, EarlyEntries, OutcomesExplained;
    if pid in s.tables.pools {
      var i := PoolWasCreated(h, pid);
      assert EntryFits(s, i) && Creates(s, h[i].txn, pid, h[i].request.price);
      if !s.tables.pools[pid].open {
        var j := PoolWasClosed(h, pid);
        assert EntryFits(s, j) && Shuts(s, h[j].txn, pid);
      }
    }
    if oid in s.tables.orders {
      var i := OrderWasPlaced(h, oid);
      assert EntryFits(s, i) && Places(s, h[i].txn, oid);
    }
  }

  // ---------------------------------------------------------------------------------------------
  // Contributions
  // ---------------------------------------------------------------------------------------------

  /** What the committed requests of a farmer have given to a pool. */
  ghost function GivenBy(es: seq<Entry>, pid: PoolId, f: FarmerId): nat {
    if es == [] then 0 else
      var last := es[|es| - 1];
      GivenBy(es[..|es| - 1], pid, f)
      + if last.outcome == Contributed && last.request.Contribute? && last.request.pid == pid && last.request.farmer == f
        then last.request.qty else 0
  }

  /** Requests of other kinds leave the contributions alone. */
  lemma OthersGiveNothing(t: Tables, r: Request)
    requires !r.Contribute?
    ensures Serve(t, r).tables.contributions == t.contributions
  {
    hide Ordered, PayoutsFor, Revenue;
  }

  lemma ServeGives(t: Tables, e: Entry, pid: PoolId, f: FarmerId)
    requires Serve(t, e.request).outcome == e.outcome
    ensures ContributedBy(Of(Serve(t, e.request).tables.contributions, pid), f)
         == ContributedBy(Of(t.contributions, pid), f) + GivenBy([e], pid, f)
  {
    var r := e.request;
    assert [e][..0] == [] && GivenBy([], pid, f) == 0;
    if r.Contribute? {
      ContributeMeaning(t, r.pid, r.farmer, r.qty);
    } else {
      OthersGiveNothing(t, r);
    }
    hide Serve, ContributedBy;
  }

  lemma {:induction false} ReplayGives(h: seq<Entry>, pid: PoolId, f: FarmerId)
    requires OutcomesExplained(h)
    ensures ContributedBy(Of(Replay(h).contributions, pid), f) == GivenBy(Committed(h), pid, f)
  {
    if h != [] {
      var front, last := h[..|h| - 1], h[|h| - 1];
      OutcomesOfFront(h);
      ReplayGives(front, pid, f);
      if last.done {
        ServeGives(Replay(front), last, pid, f);
        assert Committed(h)[..|Committed(front)|] == Committed(front);
        assert [last][..0] == [];
      } else {
        assert Committed(h) == Committed(front);
      }
      hide Serve, ContributedBy;
    }
  }

  /** What a farmer has in a pool is what the farmer's own requests have given to it. */
  lemma ContributionsAreGifts(trace: seq<State>, n: nat, pid: PoolId, f: FarmerId)
    requires Run(trace) && n < |trace|
    ensures ContributedBy(Of(trace[n].tables.contributions, pid), f) == GivenBy(Committed(trace[n].history), pid, f)
  {
    RunsKeep(trace, n);
    ReplayGives(trace[n].history, pid, f);
    hide Run, LocksMatch, AllFit, IdsFresh, EarlyEntries, HistoryMatches, OutcomesExplained;
  }

  // ---------------------------------------------------------------------------------------------
  // Payouts
  // ---------------------------------------------------------------------------------------------

  /** A share-out pays its pool's contributors, and nobody else, in proportion to what each had given,
      out of what the pool had earned when the revenue was read. */
  lemma SharedFairly(trace: seq<State>, n: nat, t: TxnId, rows: seq<PayoutRow>) returns (i: nat)
    requires Run(trace) && n < |trace| && t in trace[n].txns && trace[n].txns[t].pc == Finished(Distributed(rows))
    ensures trace[n].txns[t].request.Distribute? && i < n
    ensures t in trace[i].txns && trace[i].txns[t].pc.HaveRows? && t in trace[i + 1].txns && trace[i + 1].txns[t].pc.ReadyPayouts?
    ensures var u, pid := trace[n].tables, trace[n].txns[t].request.pid;
            && Of(u.payouts, pid) == rows
            && FairSplit(Of(u.contributions, pid), Revenue(trace[i].tables.orders, pid), rows)
  {
    i := PayoutsAreTheRevenueRead(trace, n, t, rows);
    PayoutsWithinRevenue(trace, n, n, trace[n].txns[t].request.pid);
    hide Run, FairSplit, Revenue;
  }
}
