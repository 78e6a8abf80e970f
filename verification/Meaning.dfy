/** What each request answers and does, in terms of the rows alone: when each answer is given, what has
    changed after it, and that nothing else has. */
module Meaning {
  import opened Common
  import opened PayoutSplit
  import opened Ledger
  import opened LedgerLaws

  lemma CreatePoolMeaning(t: Tables, pid: PoolId, price: nat)
    ensures var s := Serve(t, CreatePool(pid, price));
            && (pid !in t.pools <==> s.outcome == PoolCreated)
            && (pid in t.pools <==> s.outcome == IntegrityError)
            && (s.outcome != PoolCreated ==> s.tables == t)
            && (s.outcome == PoolCreated ==>
                  && s.tables.pools.Keys == t.pools.Keys + {pid} && s.tables == t.(pools := s.tables.pools)
                  && s.tables.pools[pid] == Pool(price, 0, 0, true)
                  && forall p :: p in t.pools ==> s.tables.pools[p] == t.pools[p])
  {
  }

  /** It is this farmer, on this pool, whose contribution has risen, and nobody else's. */
  lemma ContributeMeaning(t: Tables, pid: PoolId, farmer: FarmerId, qty: Qty)
    ensures var s := Serve(t, Contribute(pid, farmer, qty));
            && (pid !in t.pools <==> s.outcome == NoSuchPool)
            && (pid in t.pools && !t.pools[pid].open <==> s.outcome == PoolIsClosed)
            && (pid in t.pools && t.pools[pid].open <==> s.outcome == Contributed)
            && (s.outcome != Contributed ==> s.tables == t)
            && (s.outcome == Contributed ==>
                  && s.tables == t.(pools := s.tables.pools, contributions := s.tables.contributions)
                  && s.tables.pools == t.pools[pid := t.pools[pid].(total := t.pools[pid].total + qty, available := t.pools[pid].available + qty)]
                  && forall p, f :: ContributedBy(Of(s.tables.contributions, p), f)
                       == ContributedBy(Of(t.contributions, p), f) + if p == pid && f == farmer then qty else 0)
  {
    var s := Serve(t, Contribute(pid, farmer, qty));
    if s.outcome == Contributed {
      var before, after := Of(t.contributions, pid), Of(s.tables.contributions, pid);
      assert after[..|after| - 1] == before;
    }
  }

  lemma ClosePoolMeaning(t: Tables, pid: PoolId)
    ensures var s := Serve(t, ClosePool(pid));
            && (pid !in t.pools <==> s.outcome == NoSuchPool)
            && (pid in t.pools && !t.pools[pid].open <==> s.outcome == AlreadyClosed)
            && (pid in t.pools && t.pools[pid].open <==> s.outcome == Closed)
            && (s.outcome != Closed ==> s.tables == t)
            && (s.outcome == Closed ==> s.tables == t.(pools := t.pools[pid := t.pools[pid].(open := false)]))
  {
  }

  /** An order under a key that has one is handed back. Otherwise the pool is checked, then whether it
      is open, then its stock; the new row is what was asked for, at the pool's price of that moment. */
  lemma PlaceOrderMeaning(t: Tables, oid: OrderId, buyer: BuyerId, pid: PoolId, qty: Qty, key: Option<string>, now: int)
    ensures var s := Serve(t, PlaceOrder(oid, buyer, pid, qty, key, now));
            var taken := key.Some? && (buyer, key.value) in t.keyIndex;
            var sells := pid in t.pools && t.pools[pid].open && qty <= t.pools[pid].available;
            && (taken ==> s.outcome == Returned(t.keyIndex[(buyer, key.value)]))
            && (s.outcome.Returned? ==> taken)
            && (!taken && pid !in t.pools <==> s.outcome == NoSuchPool)
            && (!taken && pid in t.pools && !t.pools[pid].open <==> s.outcome == PoolIsClosed)
            && (!taken && pid in t.pools && t.pools[pid].open && t.pools[pid].available < qty <==> s.outcome == NoStock)
            && (!taken && sells && oid in t.orders <==> s.outcome == IntegrityError)
            && (!taken && sells && oid !in t.orders <==> s.outcome == Placed(oid))
            && (s.outcome.Placed? ==> s.outcome == Placed(oid))
            && (!s.outcome.Placed? ==> s.tables == t)
            && (s.outcome.Placed? ==>
                  && s.tables.orders == t.orders[oid := Order(pid, buyer, qty, t.pools[pid].price * qty, Pending, key, now)]
                  && s.tables.pools == t.pools[pid := t.pools[pid].(available := t.pools[pid].available - qty)]
                  && s.tables.allocations == t.allocations + [Allocation(oid, pid, qty)]
                  && s.tables.keyIndex == (if key.Some? then t.keyIndex[(buyer, key.value) := oid] else t.keyIndex)
                  && s.tables == t.(orders := s.tables.orders, pools := s.tables.pools,
                                    allocations := s.tables.allocations, keyIndex := s.tables.keyIndex))
  {
  }

  /** Only an order that is PENDING and was placed before the cutoff is released. */
  lemma ExpireOrderMeaning(t: Tables, oid: OrderId, cutoff: int)
    ensures var s := Serve(t, ExpireOrder(oid, cutoff));
            && (oid in t.orders && t.orders[oid].status == Pending && t.orders[oid].createdAt < cutoff <==> s.outcome == Released)
            && (s.outcome != Released ==> s == Served(t, Skipped))
            && (s.outcome == Released ==>
                  && s.tables.orders == t.orders[oid := t.orders[oid].(status := Expired)]
                  && s.tables == t.(orders := s.tables.orders, pools := s.tables.pools)
                  && var pid := t.orders[oid].pool;
                     s.tables.pools == if pid in t.pools
                                       then t.pools[pid := t.pools[pid].(available := t.pools[pid].available + t.orders[oid].qty)]
                                       else t.pools)
  {
  }

  /** Only a success that names an order not yet PAID takes a payment, and it takes what it carries. */
  lemma WebhookMeaning(t: Tables, event: EventId, success: bool, reference: string, order: Option<OrderId>, amount: int)
    ensures var s := Serve(t, Webhook(event, success, reference, order, amount));
            var pays := success && order.Some? && order.value in t.orders && t.orders[order.value].status != Settled;
            && (event in t.events <==> s.outcome == Duplicate)
            && (event !in t.events && !pays <==> s.outcome == Recorded)
            && (event !in t.events && pays && CountPayments(t.payments, order.value) == 0 <==> s.outcome == PaymentTaken)
            && (s.outcome == Duplicate || s.outcome == Recorded || s.outcome == PaymentTaken || s.outcome == IntegrityError)
            && (s.outcome == Duplicate || s.outcome == IntegrityError ==> s.tables == t)
            && (s.outcome == Recorded ==> s.tables == t.(events := t.events[event := reference]))
            && (s.outcome == PaymentTaken ==>
                  s.tables == t.(events := t.events[event := reference],
                                 orders := t.orders[order.value := t.orders[order.value].(status := Settled)],
                                 payments := t.payments + [Payment(order.value, amount)]))
  {
  }

  /** A closed pool that has not been paid out, has contributors and has earned something is shared
      out fairly among them. */
  lemma DistributeMeaning(t: Tables, pid: PoolId, tie: seq<FarmerId>)
    ensures var s := Serve(t, Distribute(pid, tie));
            var ready := pid in t.pools && !t.pools[pid].open && Of(t.payouts, pid) == [];
            var worth := Of(t.contributions, pid) != [] && 0 < Revenue(t.orders, pid);
            && (pid !in t.pools <==> s.outcome == NoSuchPool)
            && (pid in t.pools && t.pools[pid].open <==> s.outcome == PoolNotClosed)
            && (pid in t.pools && !t.pools[pid].open && Of(t.payouts, pid) != [] <==> s.outcome == AlreadyPaidOut)
            && (ready && !worth <==> s.outcome == NothingToPay)
            && (ready && worth <==> s.outcome.Distributed?)
            && (!s.outcome.Distributed? ==> s.tables == t)
            && (s.outcome.Distributed? ==>
                  && FairSplit(Of(t.contributions, pid), Revenue(t.orders, pid), s.outcome.rows)
                  && s.tables == t.(payouts := t.payouts[pid := s.outcome.rows]))
  {
    var s := Serve(t, Distribute(pid, tie));
    OrderedMeaning(Of(t.contributions, pid), tie);
    if s.outcome.Distributed? {
      assert [] + s.outcome.rows == s.outcome.rows;
      SplitIsFair(Of(t.contributions, pid), tie, Revenue(t.orders, pid));
    }
    hide Ordered, Revenue, FairSplit, PayoutRows, Amounts, QtySum, ContributedQty;
  }

  /** The revenue of a pool is the total of each of its PAID orders, and of nothing else. */
  lemma RevenueMeaning(orders: map<OrderId, Order>, oid: OrderId, order: Order, pid: PoolId)
    ensures Revenue(map[], pid) == 0
    ensures oid !in orders ==>
              Revenue(orders[oid := order], pid)
              == Revenue(orders, pid) + if order.pool == pid && order.status == Settled then order.total else 0
  {
    var none: map<OrderId, Order> := map[];
    assert Earnings(none, pid) == map[];
    RevenueWrite(orders, oid, order, pid);
    hide Earnings;
  }
}
