/** What every sequence of requests keeps: the stock ledger, one payment per settled order, the
    idempotency index, and payouts that never outrun revenue. */
module LedgerLaws {
  import opened Common
  import opened PayoutSplit
  import opened Ledger

  // ---------------------------------------------------------------------------------------------
  // Sums over the orders of a pool
  // ---------------------------------------------------------------------------------------------

  datatype Measure = Unreleased | ReleasedEver | Live | ReleasedThenSettled | Booked

  /** What one order adds to a measure of pool `pid`. */
  function Weight(m: Measure, released: set<OrderId>, pid: PoolId, oid: OrderId, order: Order): nat {
    if order.pool != pid then 0 else
      match m
      case Unreleased => if oid in released then 0 else order.qty
      case ReleasedEver => if oid in released then order.qty else 0
      case Live => if order.status == Pending || order.status == Settled then order.qty else 0
      case ReleasedThenSettled => if oid in released && order.status == Settled then order.qty else 0
      case Booked => order.qty
  }

  ghost function Weights(m: Measure, released: set<OrderId>, pid: PoolId, orders: map<OrderId, Order>): (weights: map<OrderId, int>)
    ensures weights.Keys == orders.Keys
    ensures forall oid :: oid in orders ==> weights[oid] == Weight(m, released, pid, oid, orders[oid])
  {
    if orders == map[] then map[] else
      var oid :| oid in orders;
      Weights(m, released, pid, orders - {oid})[oid := Weight(m, released, pid, oid, orders[oid])]
  }

  ghost function Sum(m: Measure, released: set<OrderId>, pid: PoolId, orders: map<OrderId, Order>): int {
    Total(Weights(m, released, pid, orders))
  }

  /** Writing one order row moves the revenue by the difference of what it adds. */
  lemma RevenueWrite(orders: map<OrderId, Order>, oid: OrderId, order: Order, pid: PoolId)
    ensures Revenue(orders[oid := order], pid)
         == Revenue(orders, pid) + Earning(order, pid) - (if oid in orders then Earning(orders[oid], pid) else 0)
  {
    TotalWrite(Earnings(orders, pid), oid, Earning(order, pid));
    assert Earnings(orders[oid := order], pid) == Earnings(orders, pid)[oid := Earning(order, pid)] by {
      hide Earnings;
    }
    hide Earnings;
  }

  lemma OthersWeighTheSame(m: Measure, released: set<OrderId>, oid: OrderId, pid: PoolId, k: OrderId, order: Order)
    requires k != oid
    ensures Weight(m, released + {oid}, pid, k, order) == Weight(m, released, pid, k, order)
  {
  }

  /** Writing one order row, which may also be the one newly released. */
  lemma WeightsWrite(m: Measure, released: set<OrderId>, now: set<OrderId>, pid: PoolId,
                     orders: map<OrderId, Order>, oid: OrderId, order: Order)
    requires now == released || now == released + {oid}
    ensures Weights(m, now, pid, orders[oid := order]) == Weights(m, released, pid, orders)[oid := Weight(m, now, pid, oid, order)]
  {
    hide Weights, Weight;
    forall k | k in orders && k != oid
      ensures Weight(m, now, pid, k, orders[k]) == Weight(m, released, pid, k, orders[k])
    {
      OthersWeighTheSame(m, released, oid, pid, k, orders[k]);
    }
  }

  lemma SumWrite(m: Measure, released: set<OrderId>, now: set<OrderId>, pid: PoolId,
                 orders: map<OrderId, Order>, oid: OrderId, order: Order)
    requires now == released || now == released + {oid}
    ensures Sum(m, now, pid, orders[oid := order])
         == Sum(m, released, pid, orders) + Weight(m, now, pid, oid, order)
            - (if oid in orders then Weight(m, released, pid, oid, orders[oid]) else 0)
  {
    WeightsWrite(m, released, now, pid, orders, oid, order);
    TotalWrite(Weights(m, released, pid, orders), oid, Weight(m, now, pid, oid, order));
    hide Weights, Weight;
  }

  function CountAllocations(allocations: seq<Allocation>, oid: OrderId): nat {
    if allocations == [] then 0 else
      CountAllocations(allocations[..|allocations| - 1], oid) + if allocations[|allocations| - 1].order == oid then 1 else 0
  }

  // ---------------------------------------------------------------------------------------------
  // The laws
  // ---------------------------------------------------------------------------------------------

  /** total_qty is what was contributed; available_qty is total_qty less the quantity of the orders
      the sweep has never released; it is never negative. */
  ghost predicate StockExact(t: Tables, released: set<OrderId>) {
    && (forall pid :: pid in t.pools ==>
          && t.pools[pid].total == ContributedQty(Of(t.contributions, pid))
          && t.pools[pid].available == t.pools[pid].total - Sum(Unreleased, released, pid, t.orders)
          && 0 <= t.pools[pid].available)
    && (forall oid :: oid in t.orders ==> t.orders[oid].pool in t.pools)
    && t.contributions.Keys <= t.pools.Keys
  }

  /** Every order was charged its pool's price times its quantity. */
  ghost predicate PricesExact(t: Tables) {
    forall oid :: oid in t.orders && t.orders[oid].pool in t.pools ==>
      t.orders[oid].total == t.pools[t.orders[oid].pool].price * t.orders[oid].qty
  }

  ghost predicate StatusesSound(t: Tables, released: set<OrderId>) {
    && released <= t.orders.Keys
    && forall oid :: oid in t.orders ==>
         && t.orders[oid].status != Cancelled
         && (t.orders[oid].status == Expired ==> oid in released)
         && (oid in released ==> t.orders[oid].status == Expired || t.orders[oid].status == Settled)
  }

  /** Released by the sweep, and PAID all the same. */
  ghost predicate LatePaid(t: Tables, released: set<OrderId>, oid: OrderId) {
    oid in released && oid in t.orders && t.orders[oid].status == Settled
  }

  /** The index holds exactly the keyed orders, so a (buyer, key) pair names at most one order. */
  ghost predicate IndexSound(t: Tables) {
    && (forall bk :: bk in t.keyIndex ==>
          && t.keyIndex[bk] in t.orders
          && t.orders[t.keyIndex[bk]].buyer == bk.0 && t.orders[t.keyIndex[bk]].key == Some(bk.1))
    && forall oid :: oid in t.orders && t.orders[oid].key.Some? ==>
         var bk := (t.orders[oid].buyer, t.orders[oid].key.value); bk in t.keyIndex && t.keyIndex[bk] == oid
  }

  /** An order is settled iff it has exactly one payment, and otherwise it has none. */
  ghost predicate PaymentsMatch(t: Tables) {
    forall oid :: CountPayments(t.payments, oid)
                  == if oid in t.orders && t.orders[oid].status == Settled then 1 else 0
  }

  /** Every order has exactly one allocation, for its own pool and quantity. */
  ghost predicate AllocationsMatch(t: Tables) {
    && (forall oid :: CountAllocations(t.allocations, oid) == if oid in t.orders then 1 else 0)
    && forall i :: 0 <= i < |t.allocations| ==>
         var a := t.allocations[i];
         a.order in t.orders && a.pool == t.orders[a.order].pool && a.qty == t.orders[a.order].qty
  }

  /** The payouts of a pool are the split of some revenue it had earned by then. */
  ghost predicate SplitOf(t: Tables, pid: PoolId, tie: seq<FarmerId>, revenue: int) {
    && Of(t.contributions, pid) != []
    && 0 < revenue <= Revenue(t.orders, pid)
    && Ordered(Of(t.contributions, pid), tie) != []
    && Of(t.payouts, pid) == PayoutsFor(Ordered(Of(t.contributions, pid), tie), revenue)
  }

  ghost predicate PayoutsEarned(t: Tables) {
    forall pid :: pid in t.payouts ==>
      && pid in t.pools && !t.pools[pid].open
      && exists tie, revenue :: SplitOf(t, pid, tie, revenue)
  }

  ghost predicate Sound(t: Tables, released: set<OrderId>) {
    && StockExact(t, released) && StatusesSound(t, released) && IndexSound(t)
    && PaymentsMatch(t) && AllocationsMatch(t) && PayoutsEarned(t) && PricesExact(t)
  }

  // ---------------------------------------------------------------------------------------------
  // Every request keeps them
  // ---------------------------------------------------------------------------------------------

  /** Revenue never falls: a settled order stays settled, and no order is deleted. */
  lemma RevenueGrows(before: map<OrderId, Order>, after: map<OrderId, Order>, pid: PoolId)
    requires forall oid :: oid in before ==>
               && oid in after && after[oid].pool == before[oid].pool && after[oid].total == before[oid].total
               && (before[oid].status == Settled ==> after[oid].status == Settled)
    ensures Revenue(before, pid) <= Revenue(after, pid)
  {
    hide Earnings, Total;
    TotalMonotone(Earnings(before, pid), Earnings(after, pid));
  }

  /** An order of the pool, with something to pay, became PAID in between. */
  ghost predicate PaidSince(before: map<OrderId, Order>, after: map<OrderId, Order>, pid: PoolId, oid: OrderId) {
    && oid in after && after[oid].pool == pid && after[oid].status == Settled && after[oid].total > 0
    && !(oid in before && before[oid].status == Settled)
  }

  /** Revenue stays the same exactly as long as nothing is paid. */
  lemma RevenueSame(before: map<OrderId, Order>, after: map<OrderId, Order>, pid: PoolId)
    requires forall oid :: oid in before ==>
               && oid in after && after[oid].pool == before[oid].pool && after[oid].total == before[oid].total
               && (before[oid].status == Settled ==> after[oid].status == Settled)
    ensures Revenue(before, pid) == Revenue(after, pid) <==> forall oid :: !PaidSince(before, after, pid, oid)
  {
    hide Earnings, Total;
    TotalSame(Earnings(before, pid), Earnings(after, pid));
    forall oid: OrderId
      ensures PaidSince(before, after, pid, oid) <==> oid in after && Earnings(after, pid)[oid] != EntryOf(Earnings(before, pid), oid)
    {
    }
    hide PaidSince;
  }

  ghost predicate OrdersKeep(t: Tables, u: Tables) {
    forall oid :: oid in t.orders ==>
      && oid in u.orders && u.orders[oid] == t.orders[oid].(status := u.orders[oid].status)
      && (t.orders[oid].status == Settled ==> u.orders[oid].status == Settled)
      && (t.orders[oid].status != Pending ==> u.orders[oid].status != Pending)
  }

  ghost predicate PoolsKeep(t: Tables, u: Tables) {
    forall pid :: pid in t.pools ==>
      && pid in u.pools && u.pools[pid].price == t.pools[pid].price && (u.pools[pid].open ==> t.pools[pid].open)
  }

  /** A closed pool takes no more contributions, and a pool paid out is never paid out again. */
  ghost predicate FrozenKeep(t: Tables, u: Tables) {
    && (forall pid :: pid in t.pools && !t.pools[pid].open ==> Of(u.contributions, pid) == Of(t.contributions, pid))
    && (forall pid :: Of(t.payouts, pid) != [] ==> Of(u.payouts, pid) == Of(t.payouts, pid))
  }

  /** What nothing ever takes back: orders, their settlement, pools, closing, payouts, keys, events. */
  ghost predicate Grows(t: Tables, u: Tables) {
    && OrdersKeep(t, u) && PoolsKeep(t, u) && FrozenKeep(t, u)
    && (forall bk :: bk in t.keyIndex ==> bk in u.keyIndex && u.keyIndex[bk] == t.keyIndex[bk])
    && t.events.Keys <= u.events.Keys
  }

  lemma ServeGrows(t: Tables, r: Request)
    ensures Grows(t, Serve(t, r).tables)
  {
    hide OrdersKeep, PoolsKeep, FrozenKeep;
    match r
    case CreatePool(_, _) => CreateGrows(t, r);
    case Contribute(_, _, _) => ContributeGrows(t, r);
    case ClosePool(_) => CloseGrows(t, r);
    case PlaceOrder(_, _, _, _, _, _) => OrderGrows(t, r);
    case ExpireOrder(_, _) => ExpiryGrows(t, r);
    case Webhook(_, _, _, _, _) => WebhookGrows(t, r);
    case Distribute(_, _) => DistributeGrows(t, r);
  }

  lemma CreateGrows(t: Tables, r: Request)
    requires r.CreatePool?
    ensures Grows(t, Serve(t, r).tables)
  {
  }

  lemma ContributeGrows(t: Tables, r: Request)
    requires r.Contribute?
    ensures Grows(t, Serve(t, r).tables)
  {
  }

  lemma CloseGrows(t: Tables, r: Request)
    requires r.ClosePool?
    ensures Grows(t, Serve(t, r).tables)
  {
  }

  lemma DistributeGrows(t: Tables, r: Request)
    requires r.Distribute?
    ensures Grows(t, ServeDistribute(t, r).tables)
  {
    hide PayoutsFor, Ordered, Revenue;
  }

  lemma ExpiryGrows(t: Tables, r: Request)
    requires r.ExpireOrder?
    ensures Grows(t, ServeExpiry(t, r).tables)
  {
  }

  lemma OrderGrows(t: Tables, r: Request)
    requires r.PlaceOrder?
    ensures Grows(t, ServeOrder(t, r).tables)
  {
    OrderKeepsOthers(t, r);
    hide OrdersKeep;
  }

  lemma OrderKeepsOthers(t: Tables, r: Request)
    requires r.PlaceOrder?
    ensures OrdersKeep(t, ServeOrder(t, r).tables)
  {
  }

  lemma WebhookGrows(t: Tables, r: Request)
    requires r.Webhook?
    ensures Grows(t, ServeWebhook(t, r).tables)
  {
    WebhookKeepsOthers(t, r);
    hide OrdersKeep;
  }

  lemma WebhookKeepsOthers(t: Tables, r: Request)
    requires r.Webhook?
    ensures OrdersKeep(t, ServeWebhook(t, r).tables)
  {
  }

  /** Payouts already made stay within the revenue when contributions of closed pools do not move. */
  lemma PayoutsStayEarned(t: Tables, u: Tables)
    requires PayoutsEarned(t) && OrdersKeep(t, u) && PoolsKeep(t, u) && u.payouts == t.payouts
    requires forall pid :: pid in t.payouts ==> Of(u.contributions, pid) == Of(t.contributions, pid)
    ensures PayoutsEarned(u)
  {
    forall pid | pid in u.payouts
      ensures pid in u.pools && !u.pools[pid].open
      ensures exists tie, revenue :: SplitOf(u, pid, tie, revenue)
    {
      var tie, revenue :| SplitOf(t, pid, tie, revenue);
      RevenueGrows(t.orders, u.orders, pid);
      assert SplitOf(u, pid, tie, revenue);
    }
  }

  lemma NoOrdersNoSum(m: Measure, released: set<OrderId>, pid: PoolId, orders: map<OrderId, Order>)
    requires forall oid :: oid in orders ==> orders[oid].pool != pid
    ensures Sum(m, released, pid, orders) == 0
  {
    AllZero(Weights(m, released, pid, orders));
  }

  lemma {:induction false} AllZero(m: map<nat, int>)
    requires forall k :: k in m ==> m[k] == 0
    ensures Total(m) == 0
    decreases |m|
  {
    if m != map[] {
      var k :| k in m;
      TotalRemove(m, k);
      AllZero(m - {k});
    }
  }

  /** Laws that look neither at pools nor at contributions. */
  lemma RowLawsKept(t: Tables, u: Tables)
    requires u.orders == t.orders && u.keyIndex == t.keyIndex && u.payments == t.payments && u.allocations == t.allocations
    ensures IndexSound(t) ==> IndexSound(u)
    ensures PaymentsMatch(t) ==> PaymentsMatch(u)
    ensures AllocationsMatch(t) ==> AllocationsMatch(u)
    ensures forall released :: StatusesSound(t, released) ==> StatusesSound(u, released)
  {
  }

  lemma StockKept(t: Tables, u: Tables, released: set<OrderId>)
    requires u.pools == t.pools && u.orders == t.orders && u.contributions == t.contributions
    ensures StockExact(t, released) ==> StockExact(u, released)
    ensures PricesExact(t) ==> PricesExact(u)
  {
  }

  lemma CreateKeepsStock(t: Tables, released: set<OrderId>, pid: PoolId, price: nat)
    requires StockExact(t, released) && PricesExact(t) && pid !in t.pools
    ensures StockExact(t.(pools := t.pools[pid := Pool(price, 0, 0, true)]), released)
    ensures PricesExact(t.(pools := t.pools[pid := Pool(price, 0, 0, true)]))
  {
    NoOrdersNoSum(Unreleased, released, pid, t.orders);
    CreateKeepsPrices(t, released, pid, price);
    hide Sum, PricesExact;
  }

  lemma CreateKeepsPrices(t: Tables, released: set<OrderId>, pid: PoolId, price: nat)
    requires StockExact(t, released) && PricesExact(t) && pid !in t.pools
    ensures PricesExact(t.(pools := t.pools[pid := Pool(price, 0, 0, true)]))
  {
    hide Sum;
  }

  lemma CreateKeeps(t: Tables, released: set<OrderId>, pid: PoolId, price: nat)
    requires Sound(t, released) && pid !in t.pools
    ensures Sound(t.(pools := t.pools[pid := Pool(price, 0, 0, true)]), released)
  {
    var u := t.(pools := t.pools[pid := Pool(price, 0, 0, true)]);
    OpenPoolsUnpaid(t);
    hide StockExact, StatusesSound, IndexSound, PaymentsMatch, AllocationsMatch, PayoutsEarned, PricesExact;
    CreateKeepsStock(t, released, pid, price);
    RowLawsKept(t, u);
    PayoutsStayEarned(t, u);
  }

  lemma OpenPoolsUnpaid(t: Tables)
    requires PayoutsEarned(t)
    ensures forall pid :: pid in t.payouts ==> pid in t.pools && !t.pools[pid].open
  {
  }

  lemma ContributeKeepsStock(t: Tables, released: set<OrderId>, pid: PoolId, farmer: FarmerId, qty: Qty)
    requires StockExact(t, released) && pid in t.pools
    ensures StockExact(AddContribution(t, pid, farmer, qty), released)
  {
    hide Sum;
    var before, after := Of(t.contributions, pid), Of(AddContribution(t, pid, farmer, qty).contributions, pid);
    assert ContributedQty(after) == ContributedQty(before) + qty by {
      assert after[..|after| - 1] == before;
    }
    hide ContributedQty;
  }

  lemma ContributeKeepsPrices(t: Tables, pid: PoolId, farmer: FarmerId, qty: Qty)
    requires PricesExact(t) && pid in t.pools
    ensures PricesExact(AddContribution(t, pid, farmer, qty))
  {
  }

  lemma ContributeKeepsPayouts(t: Tables, pid: PoolId, farmer: FarmerId, qty: Qty)
    requires PayoutsEarned(t) && pid in t.pools && t.pools[pid].open
    ensures PayoutsEarned(AddContribution(t, pid, farmer, qty))
  {
    OpenPoolsUnpaid(t);
    hide PayoutsEarned;
    PayoutsStayEarned(t, AddContribution(t, pid, farmer, qty));
  }

  lemma ContributeKeeps(t: Tables, released: set<OrderId>, pid: PoolId, farmer: FarmerId, qty: Qty)
    requires Sound(t, released) && pid in t.pools && t.pools[pid].open
    ensures Sound(AddContribution(t, pid, farmer, qty), released)
  {
    hide StockExact, StatusesSound, IndexSound, PaymentsMatch, AllocationsMatch, PayoutsEarned, PricesExact;
    ContributeKeepsStock(t, released, pid, farmer, qty);
    ContributeKeepsPrices(t, pid, farmer, qty);
    ContributeKeepsPayouts(t, pid, farmer, qty);
    RowLawsKept(t, AddContribution(t, pid, farmer, qty));
  }

  lemma CloseKeepsStock(t: Tables, released: set<OrderId>, pid: PoolId)
    requires StockExact(t, released) && PricesExact(t) && pid in t.pools
    ensures StockExact(t.(pools := t.pools[pid := t.pools[pid].(open := false)]), released)
    ensures PricesExact(t.(pools := t.pools[pid := t.pools[pid].(open := false)]))
  {
    hide Sum;
  }

  lemma CloseKeeps(t: Tables, released: set<OrderId>, pid: PoolId)
    requires Sound(t, released) && pid in t.pools
    ensures Sound(t.(pools := t.pools[pid := t.pools[pid].(open := false)]), released)
  {
    var u := t.(pools := t.pools[pid := t.pools[pid].(open := false)]);
    hide StockExact, StatusesSound, IndexSound, PaymentsMatch, AllocationsMatch, PayoutsEarned, PricesExact;
    CloseKeepsStock(t, released, pid);
    RowLawsKept(t, u);
    PayoutsStayEarned(t, u);
  }

  lemma OrderKeepsStock(t: Tables, released: set<OrderId>, r: Request)
    requires StockExact(t, released) && StatusesSound(t, released)
    requires r.PlaceOrder? && r.pid in t.pools && r.qty <= t.pools[r.pid].available && r.oid !in t.orders
    ensures StockExact(AddOrder(t, r), released) && StatusesSound(AddOrder(t, r), released)
  {
    hide Sum;
    var u := AddOrder(t, r);
    forall pid | pid in t.pools
      ensures u.pools[pid].available == u.pools[pid].total - Sum(Unreleased, released, pid, u.orders)
    {
      SumWrite(Unreleased, released, released, pid, t.orders, r.oid, u.orders[r.oid]);
    }
  }

  lemma OrderKeepsIndex(t: Tables, r: Request)
    requires IndexSound(t)
    requires r.PlaceOrder? && r.pid in t.pools && r.oid !in t.orders
    requires r.key.Some? ==> (r.buyer, r.key.value) !in t.keyIndex
    ensures IndexSound(AddOrder(t, r))
  {
  }

  lemma OrderKeepsRows(t: Tables, r: Request)
    requires PaymentsMatch(t) && AllocationsMatch(t)
    requires r.PlaceOrder? && r.pid in t.pools && r.oid !in t.orders
    ensures PaymentsMatch(AddOrder(t, r)) && AllocationsMatch(AddOrder(t, r))
  {
    var u := AddOrder(t, r);
    assert u.allocations[..|u.allocations| - 1] == t.allocations;
  }

  lemma OrderKeepsPrices(t: Tables, r: Request)
    requires PricesExact(t)
    requires r.PlaceOrder? && r.pid in t.pools
    ensures PricesExact(AddOrder(t, r))
  {
  }

  lemma OrderKeeps(t: Tables, released: set<OrderId>, r: Request)
    requires Sound(t, released)
    requires r.PlaceOrder? && r.pid in t.pools && r.qty <= t.pools[r.pid].available && r.oid !in t.orders
    requires r.key.Some? ==> (r.buyer, r.key.value) !in t.keyIndex
    ensures Sound(AddOrder(t, r), released)
  {
    hide StockExact, StatusesSound, IndexSound, PaymentsMatch, AllocationsMatch, PayoutsEarned, PricesExact;
    OrderKeepsStock(t, released, r);
    OrderKeepsIndex(t, r);
    OrderKeepsRows(t, r);
    OrderKeepsPrices(t, r);
    OrderGrows(t, r);
    PayoutsStayEarned(t, AddOrder(t, r));
  }

  /** Laws that a change of one order's status between unsettled values keeps. */
  lemma ExpireKeepsRows(t: Tables, oid: OrderId)
    requires IndexSound(t) && PaymentsMatch(t) && AllocationsMatch(t) && PricesExact(t)
    requires oid in t.orders && t.orders[oid].status == Pending
    ensures IndexSound(Release(t, oid)) && PaymentsMatch(Release(t, oid))
    ensures AllocationsMatch(Release(t, oid)) && PricesExact(Release(t, oid))
  {
  }

  lemma ExpireKeeps(t: Tables, released: set<OrderId>, oid: OrderId)
    requires Sound(t, released) && oid in t.orders && t.orders[oid].status == Pending
    ensures Sound(Release(t, oid), released + {oid})
  {
    hide StockExact, StatusesSound, IndexSound, PaymentsMatch, AllocationsMatch, PayoutsEarned, PricesExact;
    ExpireKeepsStock(t, released, oid);
    ExpireKeepsRows(t, oid);
    PayoutsStayEarned(t, Release(t, oid));
  }

  lemma ExpireKeepsStock(t: Tables, released: set<OrderId>, oid: OrderId)
    requires StockExact(t, released) && StatusesSound(t, released)
    requires oid in t.orders && t.orders[oid].status == Pending
    ensures StockExact(Release(t, oid), released + {oid}) && StatusesSound(Release(t, oid), released + {oid})
  {
    hide Sum;
    var u := Release(t, oid);
    forall pid | pid in t.pools
      ensures u.pools[pid].available == u.pools[pid].total - Sum(Unreleased, released + {oid}, pid, u.orders)
      ensures 0 <= u.pools[pid].available
    {
      SumWrite(Unreleased, released, released + {oid}, pid, t.orders, oid, u.orders[oid]);
    }
  }

  lemma PayKeepsRows(t: Tables, oid: OrderId, amount: int)
    requires IndexSound(t) && PaymentsMatch(t) && AllocationsMatch(t) && PricesExact(t)
    requires oid in t.orders && t.orders[oid].status != Settled
    ensures IndexSound(AddPayment(t, oid, amount)) && PaymentsMatch(AddPayment(t, oid, amount))
    ensures AllocationsMatch(AddPayment(t, oid, amount)) && PricesExact(AddPayment(t, oid, amount))
  {
    var u := AddPayment(t, oid, amount);
    assert u.payments[..|u.payments| - 1] == t.payments;
  }

  lemma PayKeeps(t: Tables, released: set<OrderId>, oid: OrderId, amount: int)
    requires Sound(t, released) && oid in t.orders && t.orders[oid].status != Settled
    ensures Sound(AddPayment(t, oid, amount), released)
  {
    hide StockExact, StatusesSound, IndexSound, PaymentsMatch, AllocationsMatch, PayoutsEarned, PricesExact;
    PayKeepsStock(t, released, oid, amount);
    PayKeepsRows(t, oid, amount);
    PayoutsStayEarned(t, AddPayment(t, oid, amount));
  }

  lemma PayKeepsStock(t: Tables, released: set<OrderId>, oid: OrderId, amount: int)
    requires StockExact(t, released) && StatusesSound(t, released)
    requires oid in t.orders
    ensures StockExact(AddPayment(t, oid, amount), released) && StatusesSound(AddPayment(t, oid, amount), released)
  {
    hide Sum;
    var u := AddPayment(t, oid, amount);
    forall pid | pid in t.pools
      ensures u.pools[pid].available == u.pools[pid].total - Sum(Unreleased, released, pid, u.orders)
    {
      SumWrite(Unreleased, released, released, pid, t.orders, oid, u.orders[oid]);
    }
  }

  lemma EventKeeps(t: Tables, released: set<OrderId>, event: EventId, reference: string)
    requires Sound(t, released)
    ensures Sound(AddEvent(t, event, reference), released)
  {
    var u := AddEvent(t, event, reference);
    StockKept(t, u, released);
    hide StockExact, StatusesSound, IndexSound, PaymentsMatch, AllocationsMatch, PayoutsEarned, PricesExact;
    RowLawsKept(t, u);
    PayoutsStayEarned(t, u);
  }

  lemma DistributeKeepsPayouts(t: Tables, pid: PoolId, tie: seq<FarmerId>, revenue: int)
    requires PayoutsEarned(t) && pid in t.pools && !t.pools[pid].open && Of(t.payouts, pid) == []
    requires Ordered(Of(t.contributions, pid), tie) != [] && 0 < revenue <= Revenue(t.orders, pid)
    ensures PayoutsEarned(AddPayouts(t, pid, PayoutsFor(Ordered(Of(t.contributions, pid), tie), revenue)))
  {
    hide PayoutsFor, Ordered, Revenue;
    var rows := PayoutsFor(Ordered(Of(t.contributions, pid), tie), revenue);
    var u := AddPayouts(t, pid, rows);
    OrderedMeaning(Of(t.contributions, pid), tie);
    assert [] + rows == rows;
    assert SplitOf(u, pid, tie, revenue);
    forall other | other in t.payouts && other != pid
      ensures exists tie, revenue :: SplitOf(u, other, tie, revenue)
    {
      var tie', revenue' :| SplitOf(t, other, tie', revenue');
      assert SplitOf(u, other, tie', revenue');
    }
  }

  lemma DistributeKeeps(t: Tables, released: set<OrderId>, pid: PoolId, tie: seq<FarmerId>, revenue: int)
    requires Sound(t, released) && pid in t.pools && !t.pools[pid].open && Of(t.payouts, pid) == []
    requires Ordered(Of(t.contributions, pid), tie) != [] && 0 < revenue <= Revenue(t.orders, pid)
    ensures Sound(AddPayouts(t, pid, PayoutsFor(Ordered(Of(t.contributions, pid), tie), revenue)), released)
  {
    var u := AddPayouts(t, pid, PayoutsFor(Ordered(Of(t.contributions, pid), tie), revenue));
    StockKept(t, u, released);
    hide PayoutsFor, Ordered, Revenue, StockExact, StatusesSound, IndexSound, PaymentsMatch, AllocationsMatch, PayoutsEarned, PricesExact;
    RowLawsKept(t, u);
    DistributeKeepsPayouts(t, pid, tie, revenue);
  }

  /** A settled order is exactly one that has a payment, so taking a payment for an order that is not
      settled cannot hit the unique constraint on payments. */
  lemma NoPaymentYet(t: Tables, oid: OrderId)
    requires PaymentsMatch(t) && oid in t.orders && t.orders[oid].status != Settled
    ensures CountPayments(t.payments, oid) == 0
  {
  }

  lemma WebhookKeeps(t: Tables, released: set<OrderId>, r: Request)
    requires Sound(t, released) && r.Webhook?
    ensures Sound(ServeWebhook(t, r).tables, released)
    ensures ServeWebhook(t, r).outcome != IntegrityError
  {
    EventKeeps(t, released, r.event, r.reference);
    hide IndexSound, AllocationsMatch, PayoutsEarned, StockExact, PricesExact;
    if Pays(t, r) {
      NoPaymentYet(t, r.order.value);
      PayKeeps(AddEvent(t, r.event, r.reference), released, r.order.value, r.amount);
    }
  }

  lemma ServeKeepsSound(t: Tables, released: set<OrderId>, r: Request)
    requires Sound(t, released)
    ensures Sound(Serve(t, r).tables, released + NewlyReleased(t, r))
  {
    hide StockExact, StatusesSound, IndexSound, PaymentsMatch, AllocationsMatch, PayoutsEarned, PricesExact;
    assert NewlyReleased(t, r) == {} ==> released + NewlyReleased(t, r) == released;
    match r
    case CreatePool(pid, price) =>
      if pid !in t.pools { CreateKeeps(t, released, pid, price); }
    case Contribute(pid, farmer, qty) =>
      if pid in t.pools && t.pools[pid].open { ContributeKeeps(t, released, pid, farmer, qty); }
    case ClosePool(pid) =>
      if pid in t.pools { CloseKeeps(t, released, pid); }
    case PlaceOrder(_, _, _, _, _, _) =>
      if ServeOrder(t, r).outcome.Placed? { OrderKeeps(t, released, r); }
    case ExpireOrder(oid, _) =>
      if ServeExpiry(t, r).outcome == Released { ExpireKeeps(t, released, oid); }
    case Webhook(_, _, _, _, _) =>
      WebhookKeeps(t, released, r);
    case Distribute(pid, tie) =>
      if ServeDistribute(t, r).outcome.Distributed? {
        DistributeKeeps(t, released, pid, tie, Revenue(t.orders, pid));
      }
  }

  lemma EmptyIsSound()
    ensures Sound(EMPTY_TABLES, {})
  {
  }

  /** The laws hold after any sequence of requests. */
  lemma {:induction false} RunsAreSound(requests: seq<Request>)
    ensures Sound(ServeAll(EMPTY_TABLES, requests), ReleasedBy(EMPTY_TABLES, requests))
  {
    if requests == [] {
      EmptyIsSound();
    } else {
      var before, last := requests[..|requests| - 1], requests[|requests| - 1];
      RunsAreSound(before);
      ServeKeepsSound(ServeAll(EMPTY_TABLES, before), ReleasedBy(EMPTY_TABLES, before), last);
    }
  }
}
