/** The same requests as interleaved database transactions: small steps over the committed tables,
    with exclusive row locks held to commit, unique inserts that wait for an uncommitted rival, and
    one committed snapshot per plain read. What a transaction has read or written but not committed
    is private to it; a commit publishes it and frees its locks. */
module Transactions {
  import opened Common
  import opened PayoutSplit
  import opened Ledger

  type TxnId = nat

  /** What a transaction can hold: the lock on a row, or an uncommitted entry of a unique index. */
  datatype Resource =
    | EventEntry(event: EventId)
    | OrderLock(oid: OrderId)
    | PoolLock(pid: PoolId)
    | KeyEntry(buyer: BuyerId, key: string)

  /** Where a transaction stands, with the row values it has read. */
  datatype Pc =
    | Start
    | WantPool                                  // about to SELECT the pool FOR UPDATE
    | HavePool(row: Pool)                       // pool row locked and read
    | WantKey(row: Pool)                        // order: checks passed, row debited privately, flush next
    | Ready(row: Pool)                          // order flushed, or contribution or closing checked: commit next
    | Reread                                    // order: rolled back after a unique violation
    | HaveOrder(order: Order)                   // expiry and webhook: order row locked and read
    | WantOrderPool(order: Order)               // expiry: about to lock the order's pool
    | ReadyExpire(order: Order, found: Option<Pool>)
    | HaveEvent                                 // webhook: event row flushed
    | EventOnly(locked: bool)                   // webhook: only the event row to commit
    | Orphan(at: nat)                           // webhook: no such order when looked for
    | ReadyPay                                  // webhook: order locked and not settled
    | CheckPaid                                 // share-out: pool closed, pre-check next
    | ReadRows                                  // share-out: contributor summary next
    | HaveRows(rows: seq<Share>)                // share-out: revenue read next
    | ReadyPayouts(rows: seq<Share>, revenue: nat, at: nat)
    | Finished(outcome: Outcome)

  datatype Txn = Txn(request: Request, pc: Pc)

  /** The serial order under construction. A transaction is entered when it commits, except that a
      share-out is entered at its revenue read and an orphan webhook at its order read; such an entry
      is not `done` until the transaction commits, and never if it does not. */
  datatype Entry = Entry(txn: TxnId, request: Request, outcome: Outcome, done: bool)

  datatype State = State(tables: Tables, locks: map<Resource, TxnId>, txns: map<TxnId, Txn>, history: seq<Entry>)

  const INITIAL := State(EMPTY_TABLES, map[], map[], [])

  // ---------------------------------------------------------------------------------------------
  // State updates
  // ---------------------------------------------------------------------------------------------

  function Goto(s: State, t: TxnId, pc: Pc): State
    requires t in s.txns
  {
    s.(txns := s.txns[t := s.txns[t].(pc := pc)])
  }

  function Lock(s: State, t: TxnId, r: Resource, pc: Pc): State
    requires t in s.txns
  {
    Goto(s, t, pc).(locks := s.locks[r := t])
  }

  function Freed(locks: map<Resource, TxnId>, t: TxnId): map<Resource, TxnId> {
    locks - (set r | r in locks && locks[r] == t)
  }

  /** Rollback, or the end of a transaction that wrote nothing. */
  function LetGo(s: State, t: TxnId, pc: Pc): State
    requires t in s.txns
  {
    Goto(s, t, pc).(locks := Freed(s.locks, t))
  }

  function Commit(s: State, t: TxnId, tables: Tables, outcome: Outcome): State
    requires t in s.txns
  {
    LetGo(s, t, Finished(outcome)).(
      tables := tables,
      history := s.history + [Entry(t, s.txns[t].request, outcome, true)])
  }

  /** Enters a transaction in the serial order before it commits. */
  function EnterEarly(s: State, t: TxnId, pc: Pc, outcome: Outcome): State
    requires t in s.txns
  {
    Goto(s, t, pc).(history := s.history + [Entry(t, s.txns[t].request, outcome, false)])
  }

  function CommitEarly(s: State, t: TxnId, at: nat, tables: Tables, outcome: Outcome): State
    requires t in s.txns
  {
    LetGo(s, t, Finished(outcome)).(
      tables := tables,
      history := if at < |s.history| then s.history[at := s.history[at].(done := true)] else s.history)
  }

  // ---------------------------------------------------------------------------------------------
  // The steps
  // ---------------------------------------------------------------------------------------------

  datatype Attempt = Blocked(on: Resource) | Went(next: State) | Over

  function PidOf(r: Request): PoolId {
    match r
    case CreatePool(pid, _) => pid
    case Contribute(pid, _, _) => pid
    case ClosePool(pid) => pid
    case PlaceOrder(_, _, pid, _, _, _) => pid
    case ExpireOrder(_, _) => 0
    case Webhook(_, _, _, _, _) => 0
    case Distribute(pid, _) => pid
  }

  function OidOf(r: Request): OrderId {
    match r
    case PlaceOrder(oid, _, _, _, _, _) => oid
    case ExpireOrder(oid, _) => oid
    case Webhook(_, _, _, order, _) => if order.Some? then order.value else 0
    case _ => 0
  }

  predicate KeyTaken(t: Tables, r: Request)
    requires r.PlaceOrder?
  {
    r.key.Some? && (r.buyer, r.key.value) in t.keyIndex
  }

  function Existing(t: Tables, r: Request): OrderId
    requires r.PlaceOrder? && KeyTaken(t, r)
  {
    t.keyIndex[(r.buyer, r.key.value)]
  }

  /** UPDATE pools SET available_qty = `available`: the new value was computed from the row read
      under the lock, not from the row as it is now. */
  function WriteAvailable(t: Tables, pid: PoolId, available: int): Tables {
    if pid in t.pools then t.(pools := t.pools[pid := t.pools[pid].(available := available)]) else t
  }

  function WriteStatus(t: Tables, oid: OrderId, status: OrderStatus): Tables {
    if oid in t.orders then t.(orders := t.orders[oid := t.orders[oid].(status := status)]) else t
  }

  function OrderWritten(t: Tables, r: Request, row: Pool): Tables
    requires r.PlaceOrder?
  {
    WriteAvailable(t, r.pid, row.available - r.qty).(
      orders := t.orders[r.oid := Order(r.pid, r.buyer, r.qty, Charge(row.price, r.qty), Pending, r.key, r.now)],
      keyIndex := if r.key.Some? then t.keyIndex[(r.buyer, r.key.value) := r.oid] else t.keyIndex,
      allocations := t.allocations + [Allocation(r.oid, r.pid, r.qty)])
  }

  function ContributionWritten(t: Tables, r: Request, row: Pool): Tables
    requires r.Contribute?
  {
    var pools := if r.pid in t.pools
                 then t.pools[r.pid := t.pools[r.pid].(total := row.total + r.qty, available := row.available + r.qty)]
                 else t.pools;
    t.(pools := pools, contributions := t.contributions[r.pid := Of(t.contributions, r.pid) + [Contribution(r.farmer, r.qty)]])
  }

  function ClosingWritten(t: Tables, pid: PoolId): Tables {
    if pid in t.pools then t.(pools := t.pools[pid := t.pools[pid].(open := false)]) else t
  }

  function ExpiryWritten(t: Tables, oid: OrderId, order: Order, found: Option<Pool>): Tables {
    var credited := if found.Some? then WriteAvailable(t, order.pool, found.value.available + order.qty) else t;
    WriteStatus(credited, oid, Expired)
  }

  function PaymentWritten(t: Tables, r: Request): Tables
    requires r.Webhook?
  {
    var recorded := AddEvent(t, r.event, r.reference);
    WriteStatus(recorded, OidOf(r), Settled).(payments := t.payments + [Payment(OidOf(r), r.amount)])
  }

  ghost function AdvanceStart(s: State, t: TxnId): Attempt
    requires t in s.txns
  {
    var r := s.txns[t].request;
    match r
    case CreatePool(pid, price) =>
      Went(Commit(s, t, s.tables.(pools := s.tables.pools[pid := Pool(price, 0, 0, true)]), PoolCreated))
    case PlaceOrder(_, _, _, _, _, _) =>
      Went(if KeyTaken(s.tables, r) then LetGo(s, t, Finished(Returned(Existing(s.tables, r)))) else Goto(s, t, WantPool))
    case ExpireOrder(oid, _) =>
      if oid !in s.tables.orders then Went(LetGo(s, t, Finished(Skipped)))
      else if OrderLock(oid) in s.locks then Blocked(OrderLock(oid))
      else Went(Lock(s, t, OrderLock(oid), HaveOrder(s.tables.orders[oid])))
    case Webhook(event, _, _, _, _) =>
      if event in s.tables.events then Went(LetGo(s, t, Finished(Duplicate)))
      else if EventEntry(event) in s.locks then Blocked(EventEntry(event))
      else Went(Lock(s, t, EventEntry(event), HaveEvent))
    case _ => Went(Goto(s, t, WantPool))
  }

  ghost function AdvanceWantPool(s: State, t: TxnId): Attempt
    requires t in s.txns
  {
    var pid := PidOf(s.txns[t].request);
    if pid !in s.tables.pools then Went(LetGo(s, t, Finished(NoSuchPool)))
    else if PoolLock(pid) in s.locks then Blocked(PoolLock(pid))
    else Went(Lock(s, t, PoolLock(pid), HavePool(s.tables.pools[pid])))
  }

  ghost function AdvanceHavePool(s: State, t: TxnId, row: Pool): Attempt
    requires t in s.txns
  {
    var r := s.txns[t].request;
    if r.PlaceOrder? then
      if !row.open then Went(LetGo(s, t, Finished(PoolIsClosed)))
      else if row.available < r.qty then Went(LetGo(s, t, Finished(NoStock)))
      else Went(Goto(s, t, WantKey(row)))
    else if r.Contribute? then
      Went(if !row.open then LetGo(s, t, Finished(PoolIsClosed)) else Goto(s, t, Ready(row)))
    else if r.ClosePool? then
      Went(if !row.open then LetGo(s, t, Finished(AlreadyClosed)) else Goto(s, t, Ready(row)))
    else
      Went(if row.open then LetGo(s, t, Finished(PoolNotClosed)) else Goto(s, t, CheckPaid))
  }

  ghost function AdvanceWantKey(s: State, t: TxnId, row: Pool): Attempt
    requires t in s.txns
  {
    var r := s.txns[t].request;
    if !r.PlaceOrder? then Over
    else if r.key == None then Went(Goto(s, t, Ready(row)))
    else if KeyTaken(s.tables, r) then Went(LetGo(s, t, Reread))
    else if KeyEntry(r.buyer, r.key.value) in s.locks then Blocked(KeyEntry(r.buyer, r.key.value))
    else Went(Lock(s, t, KeyEntry(r.buyer, r.key.value), Ready(row)))
  }

  ghost function AdvanceReady(s: State, t: TxnId, row: Pool): Attempt
    requires t in s.txns
  {
    var r := s.txns[t].request;
    if r.PlaceOrder? then Went(Commit(s, t, OrderWritten(s.tables, r, row), Placed(r.oid)))
    else if r.Contribute? then Went(Commit(s, t, ContributionWritten(s.tables, r, row), Contributed))
    else Went(Commit(s, t, ClosingWritten(s.tables, PidOf(r)), Closed))
  }

  ghost function AdvanceReread(s: State, t: TxnId): Attempt
    requires t in s.txns
  {
    var r := s.txns[t].request;
    Went(LetGo(s, t, Finished(if r.PlaceOrder? && KeyTaken(s.tables, r) then Returned(Existing(s.tables, r)) else IntegrityError)))
  }

  ghost function AdvanceHaveOrder(s: State, t: TxnId, order: Order): Attempt
    requires t in s.txns
  {
    var r := s.txns[t].request;
    if r.ExpireOrder? then
      Went(if order.status != Pending || order.createdAt >= r.cutoff then LetGo(s, t, Finished(Skipped))
           else Goto(s, t, WantOrderPool(order)))
    else
      Went(Goto(s, t, if order.status == Settled then EventOnly(true) else ReadyPay))
  }

  ghost function AdvanceWantOrderPool(s: State, t: TxnId, order: Order): Attempt
    requires t in s.txns
  {
    if order.pool !in s.tables.pools then Went(Goto(s, t, ReadyExpire(order, None)))
    else if PoolLock(order.pool) in s.locks then Blocked(PoolLock(order.pool))
    else Went(Lock(s, t, PoolLock(order.pool), ReadyExpire(order, Some(s.tables.pools[order.pool]))))
  }

  ghost function AdvanceHaveEvent(s: State, t: TxnId): Attempt
    requires t in s.txns
  {
    var r := s.txns[t].request;
    if !r.Webhook? then Over
    else if !r.success || r.order == None then Went(Goto(s, t, EventOnly(false)))
    else if r.order.value !in s.tables.orders then Went(EnterEarly(s, t, Orphan(|s.history|), Recorded))
    else if OrderLock(r.order.value) in s.locks then Blocked(OrderLock(r.order.value))
    else Went(Lock(s, t, OrderLock(r.order.value), HaveOrder(s.tables.orders[r.order.value])))
  }

  ghost function AdvanceWebhookEnd(s: State, t: TxnId): Attempt
    requires t in s.txns
  {
    var r, pc := s.txns[t].request, s.txns[t].pc;
    if !r.Webhook? then Over
    else if pc.Orphan? then Went(CommitEarly(s, t, pc.at, AddEvent(s.tables, r.event, r.reference), Recorded))
    else if pc.EventOnly? then Went(Commit(s, t, AddEvent(s.tables, r.event, r.reference), Recorded))
    else if CountPayments(s.tables.payments, OidOf(r)) > 0 then Went(LetGo(s, t, Finished(IntegrityError)))
    else Went(Commit(s, t, PaymentWritten(s.tables, r), PaymentTaken))
  }

  ghost function AdvanceShareOut(s: State, t: TxnId): Attempt
    requires t in s.txns
  {
    var r, pc := s.txns[t].request, s.txns[t].pc;
    if !r.Distribute? then Over
    else if pc.CheckPaid? then
      Went(if Of(s.tables.payouts, r.pid) != [] then LetGo(s, t, Finished(AlreadyPaidOut)) else Goto(s, t, ReadRows))
    else if pc.ReadRows? then
      var rows := Ordered(Of(s.tables.contributions, r.pid), r.tie);
      Went(if rows == [] then LetGo(s, t, Finished(NothingToPay)) else Goto(s, t, HaveRows(rows)))
    else if pc.HaveRows? then
      var revenue := Revenue(s.tables.orders, r.pid);
      if revenue <= 0 || pc.rows == [] then Went(LetGo(s, t, Finished(NothingToPay)))
      else Went(EnterEarly(s, t, ReadyPayouts(pc.rows, revenue, |s.history|), Distributed(PayoutsFor(pc.rows, revenue))))
    else if pc.ReadyPayouts? && pc.rows != [] then
      var created := PayoutsFor(pc.rows, pc.revenue);
      if SharesFarmer(Of(s.tables.payouts, r.pid), created) || RepeatsFarmer(created) then
        Went(LetGo(s, t, Finished(AlreadyPaidOut)))
      else
        Went(CommitEarly(s, t, pc.at, AddPayouts(s.tables, r.pid, created), Distributed(created)))
    else Over
  }

  /** One step of transaction `t`, unless it has to wait or has finished. */
  ghost function Advance(s: State, t: TxnId): Attempt
    requires t in s.txns
  {
    match s.txns[t].pc
    case Start => AdvanceStart(s, t)
    case WantPool => AdvanceWantPool(s, t)
    case HavePool(row) => AdvanceHavePool(s, t, row)
    case WantKey(row) => AdvanceWantKey(s, t, row)
    case Ready(row) => AdvanceReady(s, t, row)
    case Reread => AdvanceReread(s, t)
    case HaveOrder(order) => AdvanceHaveOrder(s, t, order)
    case WantOrderPool(order) => AdvanceWantOrderPool(s, t, order)
    case ReadyExpire(order, found) =>
      Went(Commit(s, t, ExpiryWritten(s.tables, OidOf(s.txns[t].request), order, found), Released))
    case HaveEvent => AdvanceHaveEvent(s, t)
    case EventOnly(_) => AdvanceWebhookEnd(s, t)
    case Orphan(_) => AdvanceWebhookEnd(s, t)
    case ReadyPay => AdvanceWebhookEnd(s, t)
    case CheckPaid => AdvanceShareOut(s, t)
    case ReadRows => AdvanceShareOut(s, t)
    case HaveRows(_) => AdvanceShareOut(s, t)
    case ReadyPayouts(_, _, _) => AdvanceShareOut(s, t)
    case Finished(_) => Over
  }

  /** A request arrives. Ids of new orders and pools are fresh, and only an order that exists is put
      up for expiry (the sweep reads its candidates from the table). */
  ghost predicate CanBegin(s: State, t: TxnId, r: Request) {
    && t !in s.txns
    && (r.PlaceOrder? ==> r.oid !in s.tables.orders && forall u :: u in s.txns && s.txns[u].request.PlaceOrder? ==> s.txns[u].request.oid != r.oid)
    && (r.CreatePool? ==> r.pid !in s.tables.pools && forall u :: u in s.txns && s.txns[u].request.CreatePool? ==> s.txns[u].request.pid != r.pid)
    && (r.ExpireOrder? ==> r.oid in s.tables.orders)
  }

  function Begun(s: State, t: TxnId, r: Request): State {
    s.(txns := s.txns[t := Txn(r, Start)])
  }

  ghost predicate Active(s: State, t: TxnId) {
    t in s.txns && !s.txns[t].pc.Finished?
  }

  /** A step of the whole system: a request arrives, a transaction steps, or an unfinished
      transaction dies and is rolled back. */
  ghost predicate Next(s: State, s': State) {
    || (exists t, r :: CanBegin(s, t, r) && s' == Begun(s, t, r))
    || (exists t :: t in s.txns && Advance(s, t) == Went(s'))
    || (exists t :: Active(s, t) && s' == LetGo(s, t, Finished(Aborted)))
  }

  ghost predicate Run(trace: seq<State>) {
    && trace != [] && trace[0] == INITIAL
    && forall i :: 0 <= i < |trace| - 1 ==> Next(trace[i], trace[i + 1])
  }
}
