/** The services as they run when nothing interleaves: rows are objects updated in place, tables are
    fields. Every method is proved to do exactly what module Ledger says its request means. */
module Services {
  import opened Common
  import opened PayoutSplit
  import opened Ledger
  import opened LedgerLaws

  class PoolRow {
    const id: PoolId
    const price: nat
    var total: int
    var available: int
    var open: bool

    constructor (id: PoolId, price: nat)
      ensures this.id == id && Value() == Pool(price, 0, 0, true)
    {
      this.id, this.price := id, price;
      total, available, open := 0, 0, true;
    }

    ghost function Value(): Pool
      reads this
    {
      Pool(price, total, available, open)
    }
  }

  class OrderRow {
    const id: OrderId
    const pool: PoolId
    const buyer: BuyerId
    const qty: Qty
    const total: nat
    const key: Option<string>
    const createdAt: int
    var status: OrderStatus

    constructor (id: OrderId, pool: PoolId, buyer: BuyerId, qty: Qty, total: nat, key: Option<string>, createdAt: int)
      ensures this.id == id && Value() == Order(pool, buyer, qty, total, Pending, key, createdAt)
    {
      this.id, this.pool, this.buyer, this.qty, this.total := id, pool, buyer, qty, total;
      this.key, this.createdAt, this.status := key, createdAt, Pending;
    }

    ghost function Value(): Order
      reads this
    {
      Order(pool, buyer, qty, total, status, key, createdAt)
    }
  }

  ghost predicate PoolsHold(rows: map<PoolId, PoolRow>, table: map<PoolId, Pool>, objects: set<object>)
    reads objects
  {
    && rows.Keys == table.Keys
    && forall pid :: pid in rows ==> rows[pid] in objects && rows[pid].id == pid && rows[pid].Value() == table[pid]
  }

  ghost predicate OrdersHold(rows: map<OrderId, OrderRow>, table: map<OrderId, Order>, objects: set<object>)
    reads objects
  {
    && rows.Keys == table.Keys
    && forall oid :: oid in rows ==> rows[oid] in objects && rows[oid].id == oid && rows[oid].Value() == table[oid]
  }

  class Database {
    var pools: map<PoolId, PoolRow>
    var orders: map<OrderId, OrderRow>
    var keyIndex: map<(BuyerId, string), OrderId>
    var contributions: map<PoolId, seq<Contribution>>
    var allocations: seq<Allocation>
    var payments: seq<Payment>
    var events: map<EventId, string>
    var payouts: map<PoolId, seq<PayoutRow>>

    /** The tables these fields and row objects hold. */
    ghost var contents: Tables

    /** The row objects. */
    ghost var rows: set<object>

    /** The row objects, each filed under its own id, hold `contents`. */
    ghost predicate Valid()
      reads this, rows
    {
      && this !in rows
      && pools.Keys == contents.pools.Keys && orders.Keys == contents.orders.Keys
      && PoolsHold(pools, contents.pools, rows) && OrdersHold(orders, contents.orders, rows)
      && keyIndex == contents.keyIndex && contributions == contents.contributions
      && allocations == contents.allocations && payments == contents.payments
      && events == contents.events && payouts == contents.payouts
    }

    constructor ()
      ensures Valid() && contents == EMPTY_TABLES && rows == {}
    {
      pools, orders, keyIndex, contributions := map[], map[], map[], map[];
      allocations, payments, events, payouts := [], [], map[], map[];
      contents, rows := EMPTY_TABLES, {};
    }

    /** pools/service.py: create_pool */
    method CreatePool(pid: PoolId, price: nat) returns (outcome: Outcome)
      requires Valid()
      modifies this`pools, this`contents, this`rows
      ensures Valid() && fresh(rows - old(rows))
      ensures Served(contents, outcome) == old(Serve(contents, Request.CreatePool(pid, price)))
      ensures outcome == PoolCreated ==> contents.pools == old(contents).pools[pid := Pool(price, 0, 0, true)]
    {
      if pid in pools {
        return IntegrityError;
      }
      InsertPool(pid, price);
      return PoolCreated;
    }

    /** INSERT INTO pools */
    method InsertPool(pid: PoolId, price: nat)
      requires Valid() && pid !in pools
      modifies this`pools, this`contents, this`rows
      ensures Valid() && fresh(rows - old(rows))
      ensures contents == WithPool(old(contents), pid, Pool(price, 0, 0, true))
    {
      var row := new PoolRow(pid, price);
      pools := pools[pid := row];
      rows := rows + {row};
      contents := WithPool(contents, pid, Pool(price, 0, 0, true));
    }

    /** contributions/service.py: create_contribution */
    method CreateContribution(pid: PoolId, farmer: FarmerId, qty: Qty) returns (outcome: Outcome)
      requires Valid()
      modifies this`contributions, this`contents, rows
      ensures Valid()
      ensures Served(contents, outcome) == old(Serve(contents, Contribute(pid, farmer, qty)))
    {
      if pid !in pools {
        return NoSuchPool;
      }
      var pool := pools[pid];
      if !pool.open {
        return PoolIsClosed;
      }
      assert contents.pools[pid].open;
      ContributionInSteps(contents, pid, farmer, qty);
      hide Serve, WithCredit, WithContribution;
      Credit(pid, qty);
      FileContribution(pid, Contribution(farmer, qty));
      return Contributed;
    }

    /** INSERT INTO contributions */
    method FileContribution(pid: PoolId, row: Contribution)
      requires Valid()
      modifies this`contributions, this`contents
      ensures Valid() && contents == WithContribution(old(contents), pid, row)
    {
      contributions := contributions[pid := Of(contributions, pid) + [row]];
      contents := contents.(contributions := contributions);
    }

    /** `pool.total_qty += qty; pool.available_qty += qty` on the locked row. */
    method Credit(pid: PoolId, qty: Qty)
      requires Valid() && pid in pools
      modifies this`contents, rows
      ensures Valid() && contents == WithCredit(old(contents), pid, qty)
    {
      var pool := pools[pid];
      pool.total := pool.total + qty;
      pool.available := pool.available + qty;
      contents := WithCredit(contents, pid, qty);
    }

    /** pools/service.py: close_pool */
    method ClosePool(pid: PoolId) returns (outcome: Outcome)
      requires Valid()
      modifies this`contents, rows
      ensures Valid()
      ensures Served(contents, outcome) == old(Serve(contents, Request.ClosePool(pid)))
    {
      if pid !in pools {
        return NoSuchPool;
      }
      var pool := pools[pid];
      if !pool.open {
        return AlreadyClosed;
      }
      pool.open := false;
      contents := Serve(contents, Request.ClosePool(pid)).tables;
      return Closed;
    }

    /** orders/service.py: create_order */
    method CreateOrder(oid: OrderId, buyer: BuyerId, pid: PoolId, qty: Qty, key: Option<string>, now: int)
      returns (outcome: Outcome)
      requires Valid()
      modifies this`orders, this`keyIndex, this`allocations, this`contents, this`rows, rows
      ensures Valid() && fresh(rows - old(rows))
      ensures Served(contents, outcome) == old(Serve(contents, PlaceOrder(oid, buyer, pid, qty, key, now)))
    {
      if key.Some? && (buyer, key.value) in keyIndex {
        return Returned(keyIndex[(buyer, key.value)]);
      }
      if pid !in pools {
        return NoSuchPool;
      }
      var pool := pools[pid];
      if !pool.open {
        return PoolIsClosed;
      }
      if pool.available < qty {
        return NoStock;
      }
      outcome := InsertOrder(oid, buyer, pid, qty, key, now);
    }

    /** The rest of create_order, after the checks: debit the locked row, flush, commit. */
    method InsertOrder(oid: OrderId, buyer: BuyerId, pid: PoolId, qty: Qty, key: Option<string>, now: int)
      returns (outcome: Outcome)
      requires Valid() && pid in pools
      modifies this`orders, this`keyIndex, this`allocations, this`contents, this`rows, rows
      ensures Valid() && fresh(rows - old(rows))
      ensures Served(contents, outcome)
           == if oid in old(contents).orders then Served(old(contents), IntegrityError)
              else Served(AddOrder(old(contents), PlaceOrder(oid, buyer, pid, qty, key, now)), Placed(oid))
    {
      ghost var t := contents;
      hide *;
      var total := TotalAt(pid, qty);
      DebitUndone(t, pid, qty);
      ChangeAvailable(pid, 0 - qty);
      var flushed := Flush(oid, Order(pid, buyer, qty, total, Pending, key, now));
      if !flushed {
        // Rollback, and no order under this key to hand back.
        ChangeAvailable(pid, qty);
        return IntegrityError;
      }
      OrderInSteps(t, PlaceOrder(oid, buyer, pid, qty, key, now));
      return Placed(oid);
    }

    /** The total is fixed at the price of the locked row. */
    method TotalAt(pid: PoolId, qty: Qty) returns (total: nat)
      requires Valid() && pid in pools
      ensures pid in contents.pools && total == Charge(contents.pools[pid].price, qty)
    {
      total := Charge(pools[pid].price, qty);
    }

    /** The rows that the flush and the commit add; the primary key refuses a second order `oid`. */
    method Flush(oid: OrderId, order: Order) returns (flushed: bool)
      requires Valid() && order.status == Pending
      modifies this`orders, this`keyIndex, this`allocations, this`contents, this`rows
      ensures Valid() && fresh(rows - old(rows)) && old(rows) <= rows
      ensures flushed <==> oid !in old(contents).orders
      ensures contents == if flushed then WithFiling(WithOrder(old(contents), oid, order), oid, order) else old(contents)
    {
      if oid in orders {
        return false;
      }
      hide WithOrder, WithFiling;
      InsertRow(oid, order);
      FileOrder(oid, order);
      return true;
    }

    /** INSERT INTO allocations, and the entry of the unique index on the keys. */
    method FileOrder(oid: OrderId, order: Order)
      requires Valid()
      modifies this`keyIndex, this`allocations, this`contents
      ensures Valid() && contents == WithFiling(old(contents), oid, order)
    {
      if order.key.Some? {
        keyIndex := keyIndex[(order.buyer, order.key.value) := oid];
      }
      allocations := allocations + [Allocation(oid, order.pool, order.qty)];
      contents := contents.(keyIndex := keyIndex, allocations := allocations);
    }

    /** INSERT INTO orders */
    method InsertRow(oid: OrderId, order: Order)
      requires Valid() && order.status == Pending && oid !in orders
      modifies this`orders, this`contents, this`rows
      ensures Valid() && fresh(rows - old(rows)) && old(rows) <= rows
      ensures contents == WithOrder(old(contents), oid, order)
    {
      var row := new OrderRow(oid, order.pool, order.buyer, order.qty, order.total, order.key, order.createdAt);
      orders := orders[oid := row];
      rows := rows + {row};
      contents := WithOrder(contents, oid, order);
    }

    /** `pool.available_qty += change` on the locked row. */
    method ChangeAvailable(pid: PoolId, change: int)
      requires Valid() && pid in pools
      modifies this`contents, rows
      ensures Valid() && contents == WithAvailable(old(contents), pid, change) && rows == old(rows)
    {
      var pool := pools[pid];
      pool.available := pool.available + change;
      contents := WithAvailable(contents, pid, change);
    }

    /** `order.status = status` on the locked row. */
    method SetStatus(oid: OrderId, status: OrderStatus)
      requires Valid() && oid in orders
      modifies this`contents, rows
      ensures Valid() && contents == WithStatus(old(contents), oid, status) && rows == old(rows)
    {
      var order := orders[oid];
      order.status := status;
      contents := WithStatus(contents, oid, status);
    }

    /** orders/service.py: _release_one_expired_order */
    method ReleaseOneExpiredOrder(oid: OrderId, cutoff: int) returns (released: bool)
      requires Valid()
      modifies this`contents, rows
      ensures Valid()
      ensures Served(contents, if released then Released else Skipped) == old(Serve(contents, ExpireOrder(oid, cutoff)))
      ensures var t := old(contents); released <==> oid in t.orders && t.orders[oid].status == Pending && t.orders[oid].createdAt < cutoff
    {
      if oid !in orders {
        return false;
      }
      var order := orders[oid];
      if order.status != Pending {
        return false;
      }
      if order.createdAt >= cutoff {
        return false;
      }
      ReleaseInSteps(contents, oid, cutoff);
      hide Serve, WithStatus, WithAvailable;
      if order.pool in pools {
        ChangeAvailable(order.pool, order.qty);
      }
      SetStatus(oid, Expired);
      return true;
    }

    /** SELECT id FROM orders WHERE status = PENDING AND created_at < cutoff */
    method ExpiryCandidates(cutoff: int) returns (candidates: seq<OrderId>)
      requires Valid()
      ensures ListsOverdue(contents.orders, cutoff, candidates)
    {
      candidates := [];
      var rest := orders.Keys;
      while rest != {}
        invariant rest <= orders.Keys
        invariant forall i, j :: 0 <= i < j < |candidates| ==> candidates[i] != candidates[j]
        invariant forall oid :: oid in candidates <==> Overdue(contents, oid, cutoff) && oid !in rest
        decreases rest
      {
        var oid :| oid in rest;
        if orders[oid].status == Pending && orders[oid].createdAt < cutoff {
          candidates := candidates + [oid];
        }
        rest := rest - {oid};
      }
    }

    /** orders/service.py: sweep_expired_orders. An order in `failing` raises before its commit: its
        transaction rolls back and the pass goes on. An order in `raising` raises after its commit, while
        the cache is cleared or the release is published: it is moved all the same, but not counted. */
    method SweepExpiredOrders(cutoff: int, failing: set<OrderId>, raising: set<OrderId>)
      returns (releasedCount: nat, ghost requests: seq<Request>, ghost moved: set<OrderId>)
      requires Valid()
      modifies this`contents, rows
      ensures Valid()
      ensures contents == ServeAll(old(contents), requests)
      ensures moved == set oid | oid in old(contents).orders && old(contents).orders[oid].status == Pending
                                 && old(contents).orders[oid].createdAt < cutoff && oid !in failing
      ensures SweptTo(old(contents), contents, moved) && |requests| == |moved| && releasedCount == |moved - raising|
      ensures forall r :: r in requests ==> r.ExpireOrder? && r.oid in moved && r.cutoff == cutoff
    {
      hide SweptTo, Tried, Overdue, ListsOverdue, Serve, ServeAll, PoolsHold, OrdersHold;
      ghost var t0 := contents;
      var candidates := ExpiryCandidates(cutoff);
      CandidatesAreOverdue(t0, cutoff, candidates);
      SweptNone(t0);
      NoneTried(failing);
      assert candidates[..0] == [];
      releasedCount, requests, moved := 0, [], {};
      for i := 0 to |candidates|
        invariant Valid()
        invariant contents == ServeAll(t0, requests)
        invariant |requests| == |moved| && releasedCount == |moved - raising|
        invariant forall r :: r in requests ==> r.ExpireOrder? && r.oid in moved && r.cutoff == cutoff
        invariant Tried(moved, candidates[..i], failing)
        invariant SweptTo(t0, contents, moved)
      {
        var oid := candidates[i];
        assert candidates[..i + 1] == candidates[..i] + [oid] && oid !in candidates[..i];
        TriedOneMore(moved, candidates[..i], failing, oid);
        if oid !in failing {
          SweepStep(t0, contents, moved, oid, cutoff);
          ServeOneMore(t0, requests, ExpireOrder(oid, cutoff));
          var released := ReleaseOneExpiredOrder(oid, cutoff);
          requests := requests + [ExpireOrder(oid, cutoff)];
          OneMoreMoved(moved, raising, oid);
          moved := moved + {oid};
          if released && oid !in raising {
            releasedCount := releasedCount + 1;
          }
        }
      }
      assert candidates[..|candidates|] == candidates;
      AllMoved(t0, cutoff, failing, candidates, moved);
    }

    /** payments/service.py: process_webhook_event */
    method ProcessWebhookEvent(event: EventId, success: bool, reference: string, order: Option<OrderId>, amount: int)
      returns (outcome: Outcome)
      requires Valid()
      modifies this`events, this`payments, this`contents, rows
      ensures Valid()
      ensures Served(contents, outcome) == old(Serve(contents, Webhook(event, success, reference, order, amount)))
    {
      if event in events {
        return Duplicate;
      }
      outcome := TakeEvent(event, success, reference, order, amount);
    }

    /** The rest of process_webhook_event, for an event not seen before. */
    method TakeEvent(event: EventId, success: bool, reference: string, order: Option<OrderId>, amount: int)
      returns (outcome: Outcome)
      requires Valid() && event !in events
      modifies this`events, this`payments, this`contents, rows
      ensures Valid()
      ensures Served(contents, outcome) == old(Serve(contents, Webhook(event, success, reference, order, amount)))
    {
      ghost var t, request := contents, Webhook(event, success, reference, order, amount);
      hide Serve, CountPayments;
      FirstDelivery(t, request);
      var seen := events;
      SetEvents(events[event := reference]);
      if !success {
        return Recorded;
      }
      if order == None {
        return Recorded;
      }
      outcome := SettleOrder(order.value, amount);
      if outcome == IntegrityError {
        SetEvents(seen);
      }
    }

    /** The insert of an event, and its rollback. */
    method SetEvents(recorded: map<EventId, string>)
      requires Valid()
      modifies this`events, this`contents
      ensures Valid() && contents == old(contents).(events := recorded)
    {
      events, contents := recorded, contents.(events := recorded);
    }

    /** The rest of process_webhook_event, from the locked read of the order on. */
    method SettleOrder(oid: OrderId, amount: int) returns (outcome: Outcome)
      requires Valid()
      modifies this`payments, this`contents, rows
      ensures Valid()
      ensures var t := old(contents);
              if oid !in t.orders || t.orders[oid].status == Settled then contents == t && outcome == Recorded
              else if CountPayments(t.payments, oid) > 0 then contents == t && outcome == IntegrityError
              else contents == AddPayment(t, oid, amount) && outcome == PaymentTaken
    {
      if oid !in orders {
        return Recorded;
      }
      var order := orders[oid];
      if order.status == Settled {
        return Recorded;
      }
      if CountPayments(payments, oid) > 0 {
        // The commit would break the unique constraint on payments: everything is rolled back.
        return IntegrityError;
      }
      assert contents.orders[oid].status != Settled && CountPayments(contents.payments, oid) == 0;
      hide PoolsHold, OrdersHold, CountPayments;
      MarkPaid(oid, amount);
      return PaymentTaken;
    }

    /** The order is PAID and its payment is inserted. */
    method MarkPaid(oid: OrderId, amount: int)
      requires Valid() && oid in orders
      modifies this`payments, this`contents, rows
      ensures Valid() && contents == AddPayment(old(contents), oid, amount)
    {
      hide PoolsHold, OrdersHold;
      SetStatus(oid, Settled);
      payments := payments + [Payment(oid, amount)];
      contents := contents.(payments := payments);
    }

    /** The revenue query of the share-out. */
    method PaidRevenue(pid: PoolId) returns (revenue: int)
      requires Valid()
      ensures revenue == Revenue(contents.orders, pid)
    {
      ghost var earned := Earnings(contents.orders, pid);
      revenue := 0;
      var rest := orders.Keys;
      OnlyAll(earned);
      while rest != {}
        invariant rest <= orders.Keys
        invariant revenue + Total(Only(earned, rest)) == Total(earned)
        decreases rest
      {
        var oid :| oid in rest;
        OnlyOneLess(earned, rest, oid);
        if orders[oid].pool == pid && orders[oid].status == Settled {
          revenue := revenue + orders[oid].total;
        }
        rest := rest - {oid};
      }
    }

    /** payouts/service.py: calculate_and_create_payouts */
    method CalculateAndCreatePayouts(pid: PoolId, tie: seq<FarmerId>) returns (outcome: Outcome)
      requires Valid()
      modifies this`payouts, this`contents
      ensures Valid()
      ensures Served(contents, outcome) == old(Serve(contents, Distribute(pid, tie)))
      ensures var t := old(contents); outcome.Distributed? ==> FairSplit(Of(t.contributions, pid), Revenue(t.orders, pid), outcome.rows)
    {
      if pid !in pools {
        return NoSuchPool;
      }
      if pools[pid].open {
        return PoolNotClosed;
      }
      if Of(payouts, pid) != [] {
        return AlreadyPaidOut;
      }
      var shares := Ordered(Of(contributions, pid), tie);
      if shares == [] {
        return NothingToPay;
      }
      var revenue := PaidRevenue(pid);
      if revenue <= 0 {
        return NothingToPay;
      }
      outcome := RecordPayouts(pid, tie, shares, revenue);
    }

    /** The rest of calculate_and_create_payouts: split, insert, commit. */
    method RecordPayouts(pid: PoolId, ghost tie: seq<FarmerId>, shares: seq<Share>, revenue: nat) returns (outcome: Outcome)
      requires Valid() && Of(payouts, pid) == []
      requires shares == Ordered(Of(contributions, pid), tie) && shares != []
      modifies this`payouts, this`contents
      ensures Valid()
      ensures contents == AddPayouts(old(contents), pid, PayoutsFor(shares, revenue))
      ensures outcome == Distributed(PayoutsFor(shares, revenue)) && FairSplit(Of(old(contents).contributions, pid), revenue, outcome.rows)
    {
      var created := SplitRevenue(shares, revenue);
      NoConflict(Of(contributions, pid), tie, revenue);
      SplitIsFair(Of(contributions, pid), tie, revenue);
      hide FairSplit, Ordered, RepeatsFarmer, PayoutRows, Amounts;
      if SharesFarmer(Of(payouts, pid), created) || RepeatsFarmer(created) {
        // Guard #2: never taken.
        return AlreadyPaidOut;
      }
      payouts := payouts[pid := Of(payouts, pid) + created];
      contents := AddPayouts(contents, pid, created);
      return Distributed(created);
    }
  }

  /** The part of a table under the keys `rest`. */
  ghost function Only(m: map<nat, int>, rest: set<nat>): map<nat, int> {
    m - (m.Keys - rest)
  }

  lemma OnlyAll(m: map<nat, int>)
    ensures Only(m, m.Keys) == m && Total(Only(m, {})) == 0
  {
    assert Only(m, {}) == map[];
  }

  lemma OnlyOneLess(m: map<nat, int>, rest: set<nat>, k: nat)
    requires k in rest && rest <= m.Keys
    ensures Total(Only(m, rest)) == m[k] + Total(Only(m, rest - {k}))
  {
    TotalRemove(Only(m, rest), k);
    assert Only(m, rest) - {k} == Only(m, rest - {k});
  }

  /** Exactly the orders in `moved` went to EXPIRED, their quantities back to their pools; every other
      order row, and all else in the pools, is as it was. */
  ghost predicate SweptTo(before: Tables, after: Tables, moved: set<OrderId>) {
    SweptOrders(before.orders, after.orders, moved) && SweptPools(before, after.pools, moved)
  }

  ghost predicate SweptOrders(before: map<OrderId, Order>, after: map<OrderId, Order>, moved: set<OrderId>) {
    && after.Keys == before.Keys
    && forall oid :: oid in before ==>
         after[oid] == before[oid].(status := if oid in moved then Expired else before[oid].status)
  }

  ghost predicate SweptPools(before: Tables, after: map<PoolId, Pool>, moved: set<OrderId>) {
    && after.Keys == before.pools.Keys
    && forall pid :: pid in before.pools ==>
         after[pid] == before.pools[pid].(available := before.pools[pid].available + Sum(ReleasedEver, moved, pid, before.orders))
  }

  function WithAvailable(t: Tables, pid: PoolId, change: int): Tables
    requires pid in t.pools
  {
    t.(pools := t.pools[pid := t.pools[pid].(available := t.pools[pid].available + change)])
  }

  function WithCredit(t: Tables, pid: PoolId, qty: Qty): Tables
    requires pid in t.pools
  {
    t.(pools := t.pools[pid := t.pools[pid].(total := t.pools[pid].total + qty, available := t.pools[pid].available + qty)])
  }

  function WithContribution(t: Tables, pid: PoolId, row: Contribution): Tables {
    t.(contributions := t.contributions[pid := Of(t.contributions, pid) + [row]])
  }

  function WithStatus(t: Tables, oid: OrderId, status: OrderStatus): Tables
    requires oid in t.orders
  {
    t.(orders := t.orders[oid := t.orders[oid].(status := status)])
  }

  function WithPool(t: Tables, pid: PoolId, pool: Pool): Tables {
    t.(pools := t.pools[pid := pool])
  }

  function WithOrder(t: Tables, oid: OrderId, order: Order): Tables {
    t.(orders := t.orders[oid := order])
  }

  function WithFiling(t: Tables, oid: OrderId, order: Order): Tables {
    t.(keyIndex := if order.key.Some? then t.keyIndex[(order.buyer, order.key.value) := oid] else t.keyIndex,
       allocations := t.allocations + [Allocation(oid, order.pool, order.qty)])
  }

  /** The credit and the filing together are the contribution. */
  lemma ContributionInSteps(t: Tables, pid: PoolId, farmer: FarmerId, qty: Qty)
    ensures Serve(t, Contribute(pid, farmer, qty)) ==
              if pid !in t.pools then Served(t, NoSuchPool)
              else if !t.pools[pid].open then Served(t, PoolIsClosed)
              else Served(WithContribution(WithCredit(t, pid, qty), pid, Contribution(farmer, qty)), Contributed)
  {
  }

  /** The credit and the status write together are the release. */
  lemma ReleaseInSteps(t: Tables, oid: OrderId, cutoff: int)
    requires Overdue(t, oid, cutoff)
    ensures var order := t.orders[oid];
            var credited := if order.pool in t.pools then WithAvailable(t, order.pool, order.qty) else t;
            && credited.orders == t.orders
            && Serve(t, ExpireOrder(oid, cutoff)) == Served(WithStatus(credited, oid, Expired), Released)
  {
  }

  /** The rollback of a debit. */
  lemma DebitUndone(t: Tables, pid: PoolId, qty: Qty)
    requires pid in t.pools
    ensures var debited := WithAvailable(t, pid, 0 - qty);
            debited.orders == t.orders && pid in debited.pools && WithAvailable(debited, pid, qty) == t
  {
  }

  /** The debit and the new rows together are the order. */
  lemma OrderInSteps(t: Tables, r: Request)
    requires r.PlaceOrder? && r.pid in t.pools
    ensures var order := Order(r.pid, r.buyer, r.qty, Charge(t.pools[r.pid].price, r.qty), Pending, r.key, r.now);
            AddOrder(t, r) == WithFiling(WithOrder(WithAvailable(t, r.pid, 0 - r.qty), r.oid, order), r.oid, order)
  {
  }

  /** The handler records the event first and then looks at the order. */
  lemma FirstDelivery(t: Tables, r: Request)
    requires r.Webhook? && r.event !in t.events
    ensures var recorded := AddEvent(t, r.event, r.reference);
            Serve(t, r) ==
              if !r.success || r.order == None then Served(recorded, Recorded)
              else if r.order.value !in recorded.orders || recorded.orders[r.order.value].status == Settled then Served(recorded, Recorded)
              else if CountPayments(recorded.payments, r.order.value) > 0 then Served(t, IntegrityError)
              else Served(AddPayment(recorded, r.order.value, r.amount), PaymentTaken)
  {
  }

  /** The orders moved are those tried whose transaction did not raise. */
  ghost predicate Tried(moved: set<OrderId>, tried: seq<OrderId>, failing: set<OrderId>) {
    forall oid :: oid in moved <==> oid in tried && oid !in failing
  }

  lemma NoneTried(failing: set<OrderId>)
    ensures Tried({}, [], failing)
  {
  }

  lemma TriedOneMore(moved: set<OrderId>, tried: seq<OrderId>, failing: set<OrderId>, oid: OrderId)
    requires Tried(moved, tried, failing) && oid !in tried
    ensures oid !in moved
    ensures Tried(if oid in failing then moved else moved + {oid}, tried + [oid], failing)
  {
  }

  lemma OneMoreMoved(moved: set<OrderId>, raising: set<OrderId>, oid: OrderId)
    requires oid !in moved
    ensures |(moved + {oid}) - raising| == |moved - raising| + if oid in raising then 0 else 1
  {
    assert (moved + {oid}) - raising == (moved - raising) + if oid in raising then {} else {oid};
  }

  /** The orders that are PENDING and were placed before the cutoff, each once. */
  ghost predicate ListsOverdue(orders: map<OrderId, Order>, cutoff: int, candidates: seq<OrderId>) {
    && (forall i, j :: 0 <= i < j < |candidates| ==> candidates[i] != candidates[j])
    && forall oid :: oid in candidates <==> oid in orders && orders[oid].status == Pending && orders[oid].createdAt < cutoff
  }

  lemma CandidatesAreOverdue(t: Tables, cutoff: int, candidates: seq<OrderId>)
    requires ListsOverdue(t.orders, cutoff, candidates)
    ensures forall i, j :: 0 <= i < j < |candidates| ==> candidates[i] != candidates[j]
    ensures forall oid :: oid in candidates <==> Overdue(t, oid, cutoff)
  {
  }

  lemma AllMoved(t: Tables, cutoff: int, failing: set<OrderId>, candidates: seq<OrderId>, moved: set<OrderId>)
    requires forall oid :: oid in candidates <==> Overdue(t, oid, cutoff)
    requires Tried(moved, candidates, failing)
    ensures moved == set oid | oid in t.orders && t.orders[oid].status == Pending && t.orders[oid].createdAt < cutoff && oid !in failing
  {
  }

  lemma SweptNone(t: Tables)
    ensures SweptTo(t, t, {}) && ServeAll(t, []) == t
  {
    hide Sum, Serve;
    forall pid: PoolId
      ensures Sum(ReleasedEver, {}, pid, t.orders) == 0
    {
      NoneReleased(t.orders, pid);
    }
  }

  lemma NoneReleased(orders: map<OrderId, Order>, pid: PoolId)
    ensures Sum(ReleasedEver, {}, pid, orders) == 0
  {
    AllZero(Weights(ReleasedEver, {}, pid, orders));
  }

  lemma SweepSum(orders: map<OrderId, Order>, moved: set<OrderId>, oid: OrderId, pid: PoolId)
    requires oid in orders && oid !in moved
    ensures Sum(ReleasedEver, moved + {oid}, pid, orders)
         == Sum(ReleasedEver, moved, pid, orders) + if orders[oid].pool == pid then orders[oid].qty else 0
  {
    SumWrite(ReleasedEver, moved, moved + {oid}, pid, orders, oid, orders[oid]);
    assert orders[oid := orders[oid]] == orders;
    hide Sum;
  }

  lemma SweepPools(t0: Tables, t: Tables, moved: set<OrderId>, oid: OrderId)
    requires SweptTo(t0, t, moved) && oid in t0.orders && oid !in moved
    ensures SweptPools(t0, Release(t, oid).pools, moved + {oid})
  {
    hide Sum;
    forall p | p in t0.pools
      ensures Release(t, oid).pools[p]
           == t0.pools[p].(available := t0.pools[p].available + Sum(ReleasedEver, moved + {oid}, p, t0.orders))
    {
      SweepSum(t0.orders, moved, oid, p);
    }
  }

  lemma SweepStep(t0: Tables, t: Tables, moved: set<OrderId>, oid: OrderId, cutoff: int)
    requires SweptTo(t0, t, moved) && Overdue(t0, oid, cutoff) && oid !in moved
    ensures Serve(t, ExpireOrder(oid, cutoff)).outcome == Released
    ensures SweptTo(t0, Serve(t, ExpireOrder(oid, cutoff)).tables, moved + {oid})
  {
    assert Serve(t, ExpireOrder(oid, cutoff)) == Served(Release(t, oid), Released);
    SweepPools(t0, t, moved, oid);
    hide Serve, SweptPools;
  }
}
