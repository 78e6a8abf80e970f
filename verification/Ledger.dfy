/** The shared tables, and what each request does to them when nothing else runs: the serial
    meaning against which the imperative services (module Services) and the interleaved
    transactions (module Transactions) are proved. */
module Ledger {
  import opened Common
  import opened PayoutSplit

  type PoolId = nat
  type OrderId = nat
  type BuyerId = nat
  type EventId = string

  datatype OrderStatus = Pending | Settled | Expired | Cancelled

  /** Money is in whole kobo (module Decimals relates it to the source's decimals). */
  datatype Pool = Pool(price: nat, total: int, available: int, open: bool)
  datatype Order = Order(pool: PoolId, buyer: BuyerId, qty: Qty, total: nat, status: OrderStatus,
                         key: Option<string>, createdAt: int)
  datatype Allocation = Allocation(order: OrderId, pool: PoolId, qty: Qty)
  datatype Payment = Payment(order: OrderId, amount: int)

  /** The committed tables. `keyIndex` is the partial unique index on (buyer, idempotency key). The
      rows of contributions and payouts are filed under their pool. */
  datatype Tables = Tables(pools: map<PoolId, Pool>,
                           orders: map<OrderId, Order>,
                           keyIndex: map<(BuyerId, string), OrderId>,
                           contributions: map<PoolId, seq<Contribution>>,
                           allocations: seq<Allocation>,
                           payments: seq<Payment>,
                           events: map<EventId, string>,
                           payouts: map<PoolId, seq<PayoutRow>>)

  const EMPTY_TABLES := Tables(map[], map[], map[], map[], [], [], map[], map[])

  /** A request, with what the outside world supplies: fresh ids, the clock, the cutoff, the parsed
      webhook, and the order in which the database returns equal sums. */
  datatype Request =
    | CreatePool(pid: PoolId, price: nat)
    | Contribute(pid: PoolId, farmer: FarmerId, qty: Qty)
    | ClosePool(pid: PoolId)
    | PlaceOrder(oid: OrderId, buyer: BuyerId, pid: PoolId, qty: Qty, key: Option<string>, now: int)
    | ExpireOrder(oid: OrderId, cutoff: int)
    | Webhook(event: EventId, success: bool, reference: string, order: Option<OrderId>, amount: int)
    | Distribute(pid: PoolId, tie: seq<FarmerId>)

  datatype Outcome =
    | PoolCreated | Contributed | Closed
    | Placed(oid: OrderId) | Returned(oid: OrderId)
    | Released | Skipped
    | Recorded | PaymentTaken | Duplicate
    | Distributed(rows: seq<PayoutRow>) | NothingToPay
    | NoSuchPool | PoolIsClosed | PoolNotClosed | AlreadyClosed | NoStock | AlreadyPaidOut
    | IntegrityError | Aborted

  datatype Served = Served(tables: Tables, outcome: Outcome)

  // ---------------------------------------------------------------------------------------------
  // Queries
  // ---------------------------------------------------------------------------------------------

  function CountPayments(payments: seq<Payment>, oid: OrderId): nat {
    if payments == [] then 0 else
      CountPayments(payments[..|payments| - 1], oid) + if payments[|payments| - 1].order == oid then 1 else 0
  }

  /** What one order adds to the revenue of a pool. */
  function Earning(order: Order, pid: PoolId): nat {
    if order.pool == pid && order.status == Settled then order.total else 0
  }

  ghost function Earnings(orders: map<OrderId, Order>, pid: PoolId): (earnings: map<OrderId, int>)
    ensures earnings.Keys == orders.Keys
    ensures forall oid :: oid in orders ==> earnings[oid] == Earning(orders[oid], pid)
  {
    if orders == map[] then map[] else
      var oid :| oid in orders;
      Earnings(orders - {oid}, pid)[oid := Earning(orders[oid], pid)]
  }

  /** SELECT COALESCE(SUM(total), 0) over the paid orders of a pool. */
  ghost function Revenue(orders: map<OrderId, Order>, pid: PoolId): int {
    Total(Earnings(orders, pid))
  }

  /** A successful charge whose reference names an order and is not settled yet is what pays it. */
  predicate Pays(t: Tables, r: Request)
    requires r.Webhook?
  {
    r.success && r.order.Some? && r.order.value in t.orders && t.orders[r.order.value].status != Settled
  }

  /** Pending, and older than the cutoff of a sweep. */
  predicate Overdue(t: Tables, oid: OrderId, cutoff: int) {
    oid in t.orders && t.orders[oid].status == Pending && t.orders[oid].createdAt < cutoff
  }

  predicate SharesFarmer(existing: seq<PayoutRow>, rows: seq<PayoutRow>) {
    exists i, j :: 0 <= i < |existing| && 0 <= j < |rows| && existing[i].farmer == rows[j].farmer
  }

  predicate RepeatsFarmer(rows: seq<PayoutRow>) {
    exists i, j :: 0 <= i < j < |rows| && rows[i].farmer == rows[j].farmer
  }

  /** What the share-out writes for an ordered summary and a revenue. */
  function PayoutsFor(rows: seq<Share>, revenue: nat): seq<PayoutRow>
    requires rows != []
  {
    PayoutRows(rows, Amounts(rows, revenue))
  }

  /** The rows of one share-out never name a farmer twice. */
  lemma NoConflict(cs: seq<Contribution>, tie: seq<FarmerId>, revenue: nat)
    requires Ordered(cs, tie) != []
    ensures !RepeatsFarmer(PayoutsFor(Ordered(cs, tie), revenue))
  {
    var rows := Ordered(cs, tie);
    OrderedMeaning(cs, tie);
    PayoutRowsMeaning(rows, Amounts(rows, revenue));
  }

  // ---------------------------------------------------------------------------------------------
  // The writes
  // ---------------------------------------------------------------------------------------------

  /** The price is fixed on the order when it is placed. */
  function Charge(price: nat, qty: Qty): nat {
    price * qty
  }

  function AddContribution(t: Tables, pid: PoolId, farmer: FarmerId, qty: Qty): Tables
    requires pid in t.pools
  {
    var pool := t.pools[pid];
    t.(pools := t.pools[pid := pool.(total := pool.total + qty, available := pool.available + qty)],
       contributions := t.contributions[pid := Of(t.contributions, pid) + [Contribution(farmer, qty)]])
  }

  function AddOrder(t: Tables, r: Request): Tables
    requires r.PlaceOrder? && r.pid in t.pools
  {
    var pool := t.pools[r.pid];
    t.(pools := t.pools[r.pid := pool.(available := pool.available - r.qty)],
       orders := t.orders[r.oid := Order(r.pid, r.buyer, r.qty, Charge(pool.price, r.qty), Pending, r.key, r.now)],
       keyIndex := if r.key.Some? then t.keyIndex[(r.buyer, r.key.value) := r.oid] else t.keyIndex,
       allocations := t.allocations + [Allocation(r.oid, r.pid, r.qty)])
  }

  function Release(t: Tables, oid: OrderId): Tables
    requires oid in t.orders
  {
    var order := t.orders[oid];
    var pools := if order.pool in t.pools
                 then t.pools[order.pool := t.pools[order.pool].(available := t.pools[order.pool].available + order.qty)]
                 else t.pools;
    t.(orders := t.orders[oid := order.(status := Expired)], pools := pools)
  }

  function AddEvent(t: Tables, event: EventId, reference: string): Tables {
    t.(events := t.events[event := reference])
  }

  function AddPayment(t: Tables, oid: OrderId, amount: int): Tables
    requires oid in t.orders
  {
    t.(orders := t.orders[oid := t.orders[oid].(status := Settled)],
       payments := t.payments + [Payment(oid, amount)])
  }

  function AddPayouts(t: Tables, pid: PoolId, rows: seq<PayoutRow>): Tables {
    t.(payouts := t.payouts[pid := Of(t.payouts, pid) + rows])
  }

  // ---------------------------------------------------------------------------------------------
  // The serial meaning of a request
  // ---------------------------------------------------------------------------------------------

  ghost function ServeOrder(t: Tables, r: Request): Served
    requires r.PlaceOrder?
  {
    if r.key.Some? && (r.buyer, r.key.value) in t.keyIndex then Served(t, Returned(t.keyIndex[(r.buyer, r.key.value)]))
    else if r.pid !in t.pools then Served(t, NoSuchPool)
    else if !t.pools[r.pid].open then Served(t, PoolIsClosed)
    else if t.pools[r.pid].available < r.qty then Served(t, NoStock)
    else if r.oid in t.orders then Served(t, IntegrityError)
    else Served(AddOrder(t, r), Placed(r.oid))
  }

  ghost function ServeExpiry(t: Tables, r: Request): Served
    requires r.ExpireOrder?
  {
    if Overdue(t, r.oid, r.cutoff) then Served(Release(t, r.oid), Released)
    else Served(t, Skipped)
  }

  ghost function ServeWebhook(t: Tables, r: Request): Served
    requires r.Webhook?
  {
    if r.event in t.events then Served(t, Duplicate)
    else if !Pays(t, r) then Served(AddEvent(t, r.event, r.reference), Recorded)
    else if CountPayments(t.payments, r.order.value) > 0 then Served(t, IntegrityError)
    else Served(AddPayment(AddEvent(t, r.event, r.reference), r.order.value, r.amount), PaymentTaken)
  }

  ghost function ServeDistribute(t: Tables, r: Request): Served
    requires r.Distribute?
  {
    var rows := Ordered(Of(t.contributions, r.pid), r.tie);
    var revenue := Revenue(t.orders, r.pid);
    if r.pid !in t.pools then Served(t, NoSuchPool)
    else if t.pools[r.pid].open then Served(t, PoolNotClosed)
    else if Of(t.payouts, r.pid) != [] then Served(t, AlreadyPaidOut)
    else if rows == [] || revenue <= 0 then Served(t, NothingToPay)
    else Served(AddPayouts(t, r.pid, PayoutsFor(rows, revenue)), Distributed(PayoutsFor(rows, revenue)))
  }

  ghost function Serve(t: Tables, r: Request): Served {
    match r
    case CreatePool(pid, price) =>
      if pid in t.pools then Served(t, IntegrityError)
      else Served(t.(pools := t.pools[pid := Pool(price, 0, 0, true)]), PoolCreated)
    case Contribute(pid, farmer, qty) =>
      if pid !in t.pools then Served(t, NoSuchPool)
      else if !t.pools[pid].open then Served(t, PoolIsClosed)
      else Served(AddContribution(t, pid, farmer, qty), Contributed)
    case ClosePool(pid) =>
      if pid !in t.pools then Served(t, NoSuchPool)
      else if !t.pools[pid].open then Served(t, AlreadyClosed)
      else Served(t.(pools := t.pools[pid := t.pools[pid].(open := false)]), Closed)
    case PlaceOrder(_, _, _, _, _, _) => ServeOrder(t, r)
    case ExpireOrder(_, _) => ServeExpiry(t, r)
    case Webhook(_, _, _, _, _) => ServeWebhook(t, r)
    case Distribute(_, _) => ServeDistribute(t, r)
  }

  /** Serving requests one after the other. */
  ghost function ServeAll(t: Tables, requests: seq<Request>): Tables {
    if requests == [] then t else
      Serve(ServeAll(t, requests[..|requests| - 1]), requests[|requests| - 1]).tables
  }

  lemma ServeOneMore(t: Tables, requests: seq<Request>, r: Request)
    ensures ServeAll(t, requests + [r]) == Serve(ServeAll(t, requests), r).tables
  {
    assert (requests + [r])[..|requests|] == requests;
  }

  // ---------------------------------------------------------------------------------------------
  // The audit trail: which orders the sweep has released
  // ---------------------------------------------------------------------------------------------

  ghost function ReleasedBy(t: Tables, requests: seq<Request>): set<OrderId> {
    if requests == [] then {} else
      var before, last := requests[..|requests| - 1], requests[|requests| - 1];
      ReleasedBy(t, before) + NewlyReleased(ServeAll(t, before), last)
  }

  ghost function NewlyReleased(t: Tables, r: Request): set<OrderId> {
    if r.ExpireOrder? && Serve(t, r).outcome == Released then {r.oid} else {}
  }
}
