/** What holds in every state that any interleaving of the requests can reach. */
module Guarantees {
  import opened Common
  import opened PayoutSplit
  import opened Ledger
  import opened LedgerLaws
  import opened Transactions
  import opened SerialOrder
  import opened Serializability

  // ---------------------------------------------------------------------------------------------
  // The laws, in every reachable state
  // ---------------------------------------------------------------------------------------------

  /** The orders that some committed expiry has released. */
  ghost function Swept(s: State): set<OrderId> {
    set t | t in s.txns && s.txns[t].request.ExpireOrder? && s.txns[t].pc == Finished(Released) :: s.txns[t].request.oid
  }

  ghost predicate ReleaseAt(h: seq<Entry>, i: nat, oid: OrderId) {
    i < |h| && h[i].done && h[i].request.ExpireOrder? && h[i].request.oid == oid && h[i].outcome == Released
  }

  lemma OutcomesOfFront(h: seq<Entry>)
    requires OutcomesExplained(h) && h != []
    ensures OutcomesExplained(h[..|h| - 1])
    ensures h[|h| - 1].done ==> Serve(Replay(h[..|h| - 1]), h[|h| - 1].request).outcome == h[|h| - 1].outcome
  {
    var front := h[..|h| - 1];
    forall i | 0 <= i < |front| && front[i].done
      ensures Serve(Replay(front[..i]), front[i].request).outcome == front[i].outcome
    {
      assert front[..i] == h[..i];
    }
  }

  lemma {:induction false} ReleasedInHistory(h: seq<Entry>, oid: OrderId)
    requires OutcomesExplained(h)
    ensures oid in ReleasedIn(h) <==> exists i :: ReleaseAt(h, i, oid)
  {
    if h != [] {
      var front, last := h[..|h| - 1], h[|h| - 1];
      OutcomesOfFront(h);
      ReleasedInHistory(front, oid);
      hide Serve, Replay;
      if oid in ReleasedIn(front) {
        var i :| ReleaseAt(front, i, oid);
        assert ReleaseAt(h, i, oid);
      }
      if last.done && oid in NewlyReleased(Replay(front), last.request) {
        assert ReleaseAt(h, |h| - 1, oid);
      }
      if i: nat :| ReleaseAt(h, i, oid) {
        assert i < |front| ==> ReleaseAt(front, i, oid);
      }
    }
  }

  lemma SweptInHistory(s: State)
    requires Inv(s)
    ensures Swept(s) == ReleasedIn(s.history)
  {
    hide LocksMatch, AllFit, IdsFresh, EarlyEntries, OutcomesExplained;
    forall oid
      ensures oid in Swept(s) <==> oid in ReleasedIn(s.history)
    {
      ReleasedInHistory(s.history, oid);
      if oid in Swept(s) {
        var t :| t in s.txns && s.txns[t].request.ExpireOrder? && s.txns[t].pc == Finished(Released) && s.txns[t].request.oid == oid;
        var i :| EnteredAt(s, t, i);
        assert EntryFits(s, i);
        assert ReleaseAt(s.history, i, oid);
      }
      if i: nat :| ReleaseAt(s.history, i, oid) {
        assert EntryFits(s, i);
      }
    }
  }

  /** The laws of module LedgerLaws hold in every reachable state. */
  lemma RunsStaySound(trace: seq<State>, n: nat)
    requires Run(trace) && n < |trace|
    ensures Sound(trace[n].tables, Swept(trace[n]))
  {
    RunsKeep(trace, n);
    SweptInHistory(trace[n]);
    ReplaySound(trace[n].history);
  }

  // ---------------------------------------------------------------------------------------------
  // The stock ledger
  // ---------------------------------------------------------------------------------------------

  lemma SumsAdd(t: Tables, released: set<OrderId>, pid: PoolId)
    requires StatusesSound(t, released)
    ensures Sum(Live, released, pid, t.orders)
         == Sum(Unreleased, released, pid, t.orders) + Sum(ReleasedThenSettled, released, pid, t.orders)
  {
    TotalAdds(Weights(Unreleased, released, pid, t.orders), Weights(ReleasedThenSettled, released, pid, t.orders),
              Weights(Live, released, pid, t.orders));
  }

  lemma SumNonNegative(m: Measure, released: set<OrderId>, pid: PoolId, orders: map<OrderId, Order>)
    ensures 0 <= Sum(m, released, pid, orders)
    ensures forall oid :: oid in orders ==> Weight(m, released, pid, oid, orders[oid]) <= Sum(m, released, pid, orders)
  {
    TotalNonNegative(Weights(m, released, pid, orders));
    forall oid | oid in orders
      ensures Weight(m, released, pid, oid, orders[oid]) <= Sum(m, released, pid, orders)
    {
      assert Weights(m, released, pid, orders)[oid] == Weight(m, released, pid, oid, orders[oid]);
    }
  }

  lemma SumZero(m: Measure, released: set<OrderId>, pid: PoolId, orders: map<OrderId, Order>)
    ensures Sum(m, released, pid, orders) == 0 <==> forall oid :: oid in orders ==> Weight(m, released, pid, oid, orders[oid]) == 0
  {
    SumNonNegative(m, released, pid, orders);
    if forall oid :: oid in orders ==> Weight(m, released, pid, oid, orders[oid]) == 0 {
      AllZero(Weights(m, released, pid, orders));
    }
  }

  /** The exact stock ledger. Pending and paid orders hold what is missing from the pool, plus the
      quantity of the orders that were released and paid for afterwards; so a pool has sold no more
      than it holds exactly as long as that quantity is still available. */
  lemma StockLedger(trace: seq<State>, n: nat, pid: PoolId)
    requires Run(trace) && n < |trace| && pid in trace[n].tables.pools
    ensures var t, swept := trace[n].tables, Swept(trace[n]); var pool := t.pools[pid];
            && pool.total == ContributedQty(Of(t.contributions, pid))
            && pool.available == pool.total - Sum(Unreleased, swept, pid, t.orders)
            && 0 <= pool.available <= pool.total
            && Sum(Live, swept, pid, t.orders) == pool.total - pool.available + Sum(ReleasedThenSettled, swept, pid, t.orders)
            && (Sum(Live, swept, pid, t.orders) <= pool.total <==> Sum(ReleasedThenSettled, swept, pid, t.orders) <= pool.available)
  {
    RunsStaySound(trace, n);
    SumsAdd(trace[n].tables, Swept(trace[n]), pid);
    SumNonNegative(Unreleased, Swept(trace[n]), pid, trace[n].tables.orders);
    hide Run, Sum, Weights;
  }

  /** The simple ledger (pending and paid quantity is what is missing from the pool) holds exactly
      when no order of the pool was released and paid for afterwards. */
  lemma SimpleLedgerIffNoLatePayment(trace: seq<State>, n: nat, pid: PoolId)
    requires Run(trace) && n < |trace| && pid in trace[n].tables.pools
    ensures var t := trace[n].tables; var pool := t.pools[pid];
            Sum(Live, {}, pid, t.orders) == pool.total - pool.available
            <==> forall oid :: LatePaid(t, Swept(trace[n]), oid) ==> t.orders[oid].pool != pid
  {
    var t, swept := trace[n].tables, Swept(trace[n]);
    StockLedger(trace, n, pid);
    LiveIsPlain(swept, pid, t.orders);
    hide Run, Sum, Swept;
    NoneReleasedThenSettled(swept, pid, t.orders);
  }

  lemma NoneReleasedThenSettled(released: set<OrderId>, pid: PoolId, orders: map<OrderId, Order>)
    ensures Sum(ReleasedThenSettled, released, pid, orders) == 0
       <==> forall oid :: oid in orders && oid in released && orders[oid].status == Settled ==> orders[oid].pool != pid
  {
    SumZero(ReleasedThenSettled, released, pid, orders);
    hide Sum;
  }

  lemma LiveIsPlain(released: set<OrderId>, pid: PoolId, orders: map<OrderId, Order>)
    ensures Sum(Live, {}, pid, orders) == Sum(Live, released, pid, orders)
  {
    assert Weights(Live, {}, pid, orders) == Weights(Live, released, pid, orders);
  }

  /** What the allocations of a pool add up to. */
  function AllocatedQty(allocations: seq<Allocation>, pid: PoolId): nat {
    if allocations == [] then 0 else
      AllocatedQty(allocations[..|allocations| - 1], pid)
      + if allocations[|allocations| - 1].pool == pid then allocations[|allocations| - 1].qty else 0
  }

  ghost predicate AllBooked(t: Tables, pid: PoolId) {
    AllocatedQty(t.allocations, pid) == Sum(Booked, {}, pid, t.orders)
  }

  lemma OrderBooked(t: Tables, r: Request, pid: PoolId)
    requires AllBooked(t, pid) && r.PlaceOrder?
    ensures AllBooked(ServeOrder(t, r).tables, pid)
  {
    var u := ServeOrder(t, r).tables;
    if ServeOrder(t, r).outcome.Placed? {
      SumWrite(Booked, {}, {}, pid, t.orders, r.oid, u.orders[r.oid]);
      assert u.allocations[..|u.allocations| - 1] == t.allocations;
    }
  }

  lemma StatusBooked(t: Tables, u: Tables, oid: OrderId, pid: PoolId)
    requires AllBooked(t, pid) && oid in t.orders && oid in u.orders && u.allocations == t.allocations
    requires u.orders == t.orders[oid := u.orders[oid]] && u.orders[oid] == t.orders[oid].(status := u.orders[oid].status)
    ensures AllBooked(u, pid)
  {
    SumWrite(Booked, {}, {}, pid, t.orders, oid, u.orders[oid]);
  }

  lemma ServeBooked(t: Tables, r: Request, pid: PoolId)
    requires AllBooked(t, pid)
    ensures AllBooked(Serve(t, r).tables, pid)
  {
    hide AllBooked, PayoutsFor, Ordered, Revenue;
    match r
    case PlaceOrder(_, _, _, _, _, _) => OrderBooked(t, r, pid);
    case ExpireOrder(oid, _) =>
      if Serve(t, r).outcome == Released { StatusBooked(t, Serve(t, r).tables, oid, pid); }
    case Webhook(_, _, _, order, _) =>
      if Serve(t, r).outcome == PaymentTaken { StatusBooked(t, Serve(t, r).tables, order.value, pid); }
      assert Serve(t, r).outcome != PaymentTaken ==> AllBooked(Serve(t, r).tables, pid) by { SameBooked(t, Serve(t, r).tables, pid); }
    case _ => SameBooked(t, Serve(t, r).tables, pid);
  }

  lemma SameBooked(t: Tables, u: Tables, pid: PoolId)
    requires AllBooked(t, pid)
    ensures u.orders == t.orders && u.allocations == t.allocations ==> AllBooked(u, pid)
  {
  }

  lemma {:induction false} ReplayBooked(h: seq<Entry>, pid: PoolId)
    ensures AllBooked(Replay(h), pid)
  {
    if h != [] {
      ReplayBooked(h[..|h| - 1], pid);
      if h[|h| - 1].done {
        hide AllBooked;
        ServeBooked(Replay(h[..|h| - 1]), h[|h| - 1].request, pid);
      }
    }
  }

  /** Allocations are never deleted, so they count the released orders too. That the allocations of a
      pool stay within its contributions holds exactly while what was ever released is still there. */
  lemma AllocationLedger(trace: seq<State>, n: nat, pid: PoolId)
    requires Run(trace) && n < |trace| && pid in trace[n].tables.pools
    ensures var t := trace[n].tables; var pool := t.pools[pid]; var released := Sum(ReleasedEver, Swept(trace[n]), pid, t.orders);
            && AllocatedQty(t.allocations, pid) == pool.total - pool.available + released
            && (AllocatedQty(t.allocations, pid) <= pool.total <==> released <= pool.available)
  {
    StockLedger(trace, n, pid);
    BookedInRuns(trace, n, pid);
    BookedSplits(Swept(trace[n]), pid, trace[n].tables.orders);
    hide Run, Sum, Swept;
  }

  lemma BookedInRuns(trace: seq<State>, n: nat, pid: PoolId)
    requires Run(trace) && n < |trace|
    ensures AllBooked(trace[n].tables, pid)
  {
    RunsKeep(trace, n);
    ReplayBooked(trace[n].history, pid);
    hide Run, AllBooked;
  }

  lemma BookedSplits(released: set<OrderId>, pid: PoolId, orders: map<OrderId, Order>)
    ensures Sum(Booked, {}, pid, orders) == Sum(Unreleased, released, pid, orders) + Sum(ReleasedEver, released, pid, orders)
  {
    TotalAdds(Weights(Unreleased, released, pid, orders), Weights(ReleasedEver, released, pid, orders), Weights(Booked, {}, pid, orders));
  }

  // ---------------------------------------------------------------------------------------------
  // What can happen only once
  // ---------------------------------------------------------------------------------------------

  lemma {:induction false} ReplayGrows(h: seq<Entry>, i: nat, j: nat)
    requires i <= j <= |h|
    ensures Grows(Replay(h[..i]), Replay(h[..j]))
  {
    hide Grows;
    if i == j {
      GrowsAtOnce(Replay(h[..i]));
    } else {
      ReplayGrows(h, i, j - 1);
      assert h[..j][..j - 1] == h[..j - 1];
      var before := Replay(h[..j - 1]);
      if h[j - 1].done {
        ServeGrows(before, h[j - 1].request);
      } else {
        GrowsAtOnce(before);
      }
      GrowsThrough(Replay(h[..i]), before, Replay(h[..j]));
    }
  }

  /** The two outcomes would do the same thing twice. */
  predicate SameDeed(r: Request, o: Outcome, q: Request, p: Outcome) {
    || (r.PlaceOrder? && q.PlaceOrder? && o.Placed? && p.Placed? && r.buyer == q.buyer && r.key == q.key && r.key.Some?)
    || (r.ExpireOrder? && q.ExpireOrder? && o == p == Released && r.oid == q.oid)
    || (r.Webhook? && q.Webhook? && Writes(o) && Writes(p) && r.event == q.event)
    || (r.Webhook? && q.Webhook? && o == p == PaymentTaken && r.order == q.order)
    || (r.Distribute? && q.Distribute? && o.Distributed? && p.Distributed? && r.pid == q.pid)
    || (r.ClosePool? && q.ClosePool? && o == p == Closed && r.pid == q.pid)
  }

  /** Once served, a deed leaves tables in which it is not served again. */
  lemma DeedIsDone(t: Tables, r: Request, q: Request, u: Tables)
    requires Grows(Serve(t, r).tables, u)
    requires Writes(Serve(t, r).outcome) && Writes(Serve(u, q).outcome)
    ensures !SameDeed(r, Serve(t, r).outcome, q, Serve(u, q).outcome)
  {
    var o, p := Serve(t, r).outcome, Serve(u, q).outcome;
    if r.PlaceOrder? && q.PlaceOrder? {
      OrderIsDone(t, r, q, u);
    } else if r.ExpireOrder? && q.ExpireOrder? {
      ExpiryIsDone(t, r, q, u);
    } else if r.Webhook? && q.Webhook? {
      EventIsDone(t, r, q, u);
    } else if r.Distribute? && q.Distribute? && r.pid == q.pid && o.Distributed? {
      ShareOutIsDone(t, r, q, u);
    } else if r.ClosePool? && q.ClosePool? {
      ClosingIsDone(t, r, q, u);
    }
    hide Serve, Grows;
  }

  lemma OrderIsDone(t: Tables, r: Request, q: Request, u: Tables)
    requires r.PlaceOrder? && q.PlaceOrder? && Grows(ServeOrder(t, r).tables, u)
    ensures !SameDeed(r, ServeOrder(t, r).outcome, q, ServeOrder(u, q).outcome)
  {
    hide OrdersKeep, PoolsKeep, FrozenKeep;
  }

  lemma ExpiryIsDone(t: Tables, r: Request, q: Request, u: Tables)
    requires r.ExpireOrder? && q.ExpireOrder? && Grows(ServeExpiry(t, r).tables, u)
    ensures !SameDeed(r, ServeExpiry(t, r).outcome, q, ServeExpiry(u, q).outcome)
  {
    hide PoolsKeep, FrozenKeep;
  }

  lemma EventIsDone(t: Tables, r: Request, q: Request, u: Tables)
    requires r.Webhook? && q.Webhook? && Grows(ServeWebhook(t, r).tables, u)
    requires Writes(ServeWebhook(t, r).outcome) && Writes(ServeWebhook(u, q).outcome)
    ensures !SameDeed(r, ServeWebhook(t, r).outcome, q, ServeWebhook(u, q).outcome)
  {
    hide PoolsKeep, FrozenKeep;
  }

  lemma ClosingIsDone(t: Tables, r: Request, q: Request, u: Tables)
    requires r.ClosePool? && q.ClosePool? && Grows(Serve(t, r).tables, u)
    ensures !SameDeed(r, Serve(t, r).outcome, q, Serve(u, q).outcome)
  {
    hide OrdersKeep, FrozenKeep;
  }

  lemma ShareOutIsDone(t: Tables, r: Request, q: Request, u: Tables)
    requires r.Distribute? && Grows(ServeDistribute(t, r).tables, u) && ServeDistribute(t, r).outcome.Distributed?
    requires q.Distribute? && q.pid == r.pid
    ensures !ServeDistribute(u, q).outcome.Distributed?
  {
    SomebodyPaid(Ordered(Of(t.contributions, r.pid), r.tie), Revenue(t.orders, r.pid));
    hide Ordered, PayoutsFor, Revenue, OrdersKeep, PoolsKeep;
  }

  lemma EntryOnce(h: seq<Entry>, i: nat, j: nat)
    requires OutcomesExplained(h) && i < j < |h| && h[i].done && h[j].done
    requires Writes(h[i].outcome) && Writes(h[j].outcome)
    ensures !SameDeed(h[i].request, h[i].outcome, h[j].request, h[j].outcome)
  {
    hide Serve, Grows, SameDeed;
    assert h[..i + 1][..i] == h[..i];
    ReplayGrows(h, i + 1, j);
    DeedIsDone(Replay(h[..i]), h[i].request, h[j].request, Replay(h[..j]));
  }

  /** No two transactions place an order under the same key, release the same order, record the same
      event, take a payment for the same order, pay out the same pool, or close the same pool. */
  lemma EachDeedOnce(trace: seq<State>, n: nat, t: TxnId, u: TxnId, o: Outcome, p: Outcome)
    requires Run(trace) && n < |trace| && t != u
    requires CommittedWriter(trace[n], t, o) && CommittedWriter(trace[n], u, p)
    ensures !SameDeed(trace[n].txns[t].request, o, trace[n].txns[u].request, p)
  {
    var s := trace[n];
    RunsKeep(trace, n);
    hide LocksMatch, AllFit, IdsFresh, EarlyEntries, SameDeed, OutcomesExplained;
    var i: nat :| EnteredAt(s, t, i);
    var j: nat :| EnteredAt(s, u, j);
    assert EntryFits(s, i) && EntryFits(s, j);
    if i < j {
      EntryOnce(s.history, i, j);
    } else {
      EntryOnce(s.history, j, i);
      SameDeedEitherWay(s.history[i].request, o, s.history[j].request, p);
    }
  }

  lemma SameDeedEitherWay(r: Request, o: Outcome, q: Request, p: Outcome)
    ensures SameDeed(r, o, q, p) == SameDeed(q, p, r, o)
  {
  }
}
