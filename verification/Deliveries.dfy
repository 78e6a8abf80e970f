/** Webhook deliveries and the money they bring: repeated deliveries, payments that come after the
    sweep, and payments against revenue and payouts. */
module Deliveries {
  import opened Common
  import opened PayoutSplit
  import opened Ledger
  import opened LedgerLaws
  import opened Transactions
  import opened SerialOrder
  import opened Serializability
  import opened Guarantees
  import opened Answers
  import opened Decimals

  // ---------------------------------------------------------------------------------------------
  // Repeated deliveries
  // ---------------------------------------------------------------------------------------------

  ghost predicate DeliveredIn(requests: seq<Request>, event: EventId) {
    exists i :: 0 <= i < |requests| && requests[i].Webhook? && requests[i].event == event
  }

  /** The requests without the deliveries of event ids that were delivered before. */
  ghost function FirstDeliveries(requests: seq<Request>): seq<Request> {
    if requests == [] then [] else
      var front, last := requests[..|requests| - 1], requests[|requests| - 1];
      FirstDeliveries(front) + if last.Webhook? && DeliveredIn(front, last.event) then [] else [last]
  }

  lemma {:induction false} DeliveredIsRecorded(requests: seq<Request>, event: EventId)
    requires DeliveredIn(requests, event)
    ensures event in ServeAll(EMPTY_TABLES, requests).events
  {
    var front, last := requests[..|requests| - 1], requests[|requests| - 1];
    var t := ServeAll(EMPTY_TABLES, front);
    ServeGrows(t, last);
    if last.Webhook? && last.event == event {
      RunsAreSound(front);
      WebhookKeeps(t, ReleasedBy(EMPTY_TABLES, front), last);
      WebhookRecords(t, last);
    } else {
      DeliveredIsRecorded(front, event);
    }
    hide Serve, Sound, OrdersKeep, PoolsKeep, FrozenKeep;
  }

  lemma WebhookRecords(t: Tables, r: Request)
    requires r.Webhook?
    ensures ServeWebhook(t, r).outcome != IntegrityError ==> r.event in ServeWebhook(t, r).tables.events
    ensures Serve(t, r) == ServeWebhook(t, r)
    ensures r.event in t.events ==> Serve(t, r) == Served(t, Duplicate)
  {
  }

  /** Any sequence of requests leaves the same tables as the sequence cleaned of repeated deliveries,
      whatever the repeated deliveries carry. */
  lemma {:induction false} RepeatedDeliveriesChangeNothing(requests: seq<Request>)
    ensures ServeAll(EMPTY_TABLES, FirstDeliveries(requests)) == ServeAll(EMPTY_TABLES, requests)
  {
    if requests != [] {
      var front, last := requests[..|requests| - 1], requests[|requests| - 1];
      RepeatedDeliveriesChangeNothing(front);
      if last.Webhook? && DeliveredIn(front, last.event) {
        DeliveredIsRecorded(front, last.event);
        WebhookRecords(ServeAll(EMPTY_TABLES, front), last);
        assert FirstDeliveries(requests) == FirstDeliveries(front);
      } else {
        ServeOneMore(EMPTY_TABLES, FirstDeliveries(front), last);
      }
      hide Serve;
    }
  }

  // ---------------------------------------------------------------------------------------------
  // Payments after the sweep
  // ---------------------------------------------------------------------------------------------

  ghost predicate FoundExpired(t: Tables, r: Request, oid: OrderId) {
    r.Webhook? && r.order == Some(oid) && oid in t.orders && t.orders[oid].status == Expired && Serve(t, r).outcome == PaymentTaken
  }

  /** The i-th request is a webhook that finds the order EXPIRED and makes it PAID. */
  ghost predicate LatePaymentAt(requests: seq<Request>, i: nat, oid: OrderId) {
    i < |requests| && FoundExpired(ServeAll(EMPTY_TABLES, requests[..i]), requests[i], oid)
  }

  lemma LateWebhook(t: Tables, released: set<OrderId>, r: Request, oid: OrderId)
    requires StatusesSound(t, released) && r.Webhook?
    ensures LatePaid(ServeWebhook(t, r).tables, released, oid) <==> LatePaid(t, released, oid) || FoundExpired(t, r, oid)
  {
  }

  lemma LateExpiry(t: Tables, released: set<OrderId>, r: Request, oid: OrderId)
    requires StatusesSound(t, released) && r.ExpireOrder?
    ensures LatePaid(ServeExpiry(t, r).tables, released + NewlyReleased(t, r), oid) <==> LatePaid(t, released, oid)
  {
  }

  lemma LateOrder(t: Tables, released: set<OrderId>, r: Request, oid: OrderId)
    requires StatusesSound(t, released) && r.PlaceOrder?
    ensures LatePaid(ServeOrder(t, r).tables, released, oid) <==> LatePaid(t, released, oid)
  {
  }

  lemma LateStep(t: Tables, released: set<OrderId>, r: Request, oid: OrderId)
    requires StatusesSound(t, released)
    ensures LatePaid(Serve(t, r).tables, released + NewlyReleased(t, r), oid) <==> LatePaid(t, released, oid) || FoundExpired(t, r, oid)
  {
    hide StatusesSound, PayoutsFor, Ordered, Revenue;
    assert !r.ExpireOrder? ==> released + NewlyReleased(t, r) == released;
    match r
    case PlaceOrder(_, _, _, _, _, _) => LateOrder(t, released, r, oid);
    case ExpireOrder(_, _) => LateExpiry(t, released, r, oid);
    case Webhook(_, _, _, _, _) => LateWebhook(t, released, r, oid);
    case _ => assert Serve(t, r).tables.orders == t.orders;
  }

  lemma LatePaymentInFront(requests: seq<Request>, i: nat, oid: OrderId)
    requires requests != []
    ensures var front, last := requests[..|requests| - 1], requests[|requests| - 1];
            LatePaymentAt(requests, i, oid)
            <==> LatePaymentAt(front, i, oid) || (i == |front| && FoundExpired(ServeAll(EMPTY_TABLES, front), last, oid))
  {
    var front := requests[..|requests| - 1];
    hide FoundExpired, ServeAll;
    assert i <= |front| ==> requests[..i] == front[..i];
  }

  /** An order is both released and PAID exactly when some webhook found it EXPIRED and paid it: the
      branch that skips only unknown and PAID orders is the one cause. */
  lemma {:induction false} LatePaymentIsTheCause(requests: seq<Request>, oid: OrderId)
    ensures LatePaid(ServeAll(EMPTY_TABLES, requests), ReleasedBy(EMPTY_TABLES, requests), oid) <==> exists i :: LatePaymentAt(requests, i, oid)
  {
    if requests == [] {
      NothingLateInNoRequests(oid);
    } else {
      var front, last := requests[..|requests| - 1], requests[|requests| - 1];
      LatePaymentIsTheCause(front, oid);
      RunsAreSound(front);
      LateStep(ServeAll(EMPTY_TABLES, front), ReleasedBy(EMPTY_TABLES, front), last, oid);
      assert LatePaid(ServeAll(EMPTY_TABLES, requests), ReleasedBy(EMPTY_TABLES, requests), oid)
        <==> LatePaid(ServeAll(EMPTY_TABLES, front), ReleasedBy(EMPTY_TABLES, front), oid) || FoundExpired(ServeAll(EMPTY_TABLES, front), last, oid) by {
        hide Serve, Sound, NewlyReleased, LatePaid, FoundExpired;
      }
      hide *;
      forall i: nat
        ensures LatePaymentAt(requests, i, oid)
           <==> LatePaymentAt(front, i, oid) || (i == |front| && FoundExpired(ServeAll(EMPTY_TABLES, front), last, oid))
      {
        LatePaymentInFront(requests, i, oid);
      }
      assert LatePaymentAt(requests, |front|, oid) <== FoundExpired(ServeAll(EMPTY_TABLES, front), last, oid);
    }
  }

  lemma NothingLateInNoRequests(oid: OrderId)
    ensures !LatePaid(ServeAll(EMPTY_TABLES, []), ReleasedBy(EMPTY_TABLES, []), oid) && forall i :: !LatePaymentAt([], i, oid)
  {
  }

  /** In the interleaved system too: an order is released and PAID exactly when, in the serial order of
      the committed requests, some webhook found it EXPIRED. */
  lemma LatePaymentInRuns(trace: seq<State>, n: nat, oid: OrderId)
    requires Run(trace) && n < |trace|
    ensures LatePaid(trace[n].tables, Swept(trace[n]), oid)
       <==> exists i :: LatePaymentAt(Requests(Committed(trace[n].history)), i, oid)
  {
    var h := trace[n].history;
    RunsKeep(trace, n);
    SweptInHistory(trace[n]);
    ReplayIsServing(h);
    LatePaymentIsTheCause(Requests(Committed(h)), oid);
    hide Run, LatePaymentAt, ServeAll, Swept, Replay, ReleasedIn, ReleasedBy, Committed, Requests;
  }

  // ---------------------------------------------------------------------------------------------
  // Which webhook paid what
  // ---------------------------------------------------------------------------------------------

  /** The only answer that settles an order or records a payment is PaymentTaken. */
  lemma ServePays(t: Tables, r: Request)
    ensures var u := Serve(t, r).tables;
            if Serve(t, r).outcome == PaymentTaken then
              && r.Webhook? && r.success && r.order.Some? && r.order.value in t.orders
              && u.orders == t.orders[r.order.value := t.orders[r.order.value].(status := Settled)]
              && u.payments == t.payments + [Payment(r.order.value, r.amount)]
            else
              && u.payments == t.payments
              && forall oid :: oid in u.orders && u.orders[oid].status == Settled ==> oid in t.orders && t.orders[oid].status == Settled
  {
    hide PayoutsFor, Ordered, Revenue;
  }

  /** The entry at `i` has paid order `oid`. */
  ghost predicate PaidAt(h: seq<Entry>, i: nat, oid: OrderId) {
    i < |h| && h[i].done && h[i].outcome == PaymentTaken && h[i].request.Webhook? && h[i].request.order == Some(oid)
  }

  lemma {:induction false} SettledWasPaid(h: seq<Entry>, oid: OrderId) returns (i: nat)
    requires OutcomesExplained(h) && oid in Replay(h).orders && Replay(h).orders[oid].status == Settled
    ensures PaidAt(h, i, oid)
  {
    if h != [] {
      var front, last := h[..|h| - 1], h[|h| - 1];
      OutcomesOfFront(h);
      ServePays(Replay(front), last.request);
      hide Serve;
      if last.done && last.outcome == PaymentTaken && last.request.order == Some(oid) {
        i := |h| - 1;
      } else {
        i := SettledWasPaid(front, oid);
      }
    } else {
      assert false;
    }
  }

  /** Every entry that took a payment names an order, settled it, and recorded its own amount. */
  lemma {:induction false} TakenIsRecorded(h: seq<Entry>, i: nat)
    requires OutcomesExplained(h) && i < |h| && h[i].done && h[i].outcome == PaymentTaken
    ensures var r, t := h[i].request, Replay(h);
            && r.Webhook? && r.success && r.order.Some? && r.order.value in t.orders && t.orders[r.order.value].status == Settled
            && Payment(r.order.value, r.amount) in t.payments
  {
    var front, last := h[..|h| - 1], h[|h| - 1];
    OutcomesOfFront(h);
    ServePays(Replay(front), last.request);
    ServeGrows(Replay(front), last.request);
    if i < |front| {
      TakenIsRecorded(front, i);
    }
    hide Serve, PoolsKeep, FrozenKeep, OutcomesExplained;
  }

  /** Webhook `t` has taken the payment for order `oid`. */
  ghost predicate PaidBy(s: State, t: TxnId, oid: OrderId) {
    && t in s.txns && s.txns[t].request.Webhook? && s.txns[t].request.order == Some(oid)
    && s.txns[t].pc == Finished(PaymentTaken)
  }

  ghost predicate Succeeded(s: State, t: TxnId) {
    t in s.txns && s.txns[t].request.Webhook? && s.txns[t].request.success
  }

  ghost predicate Carries(s: State, t: TxnId, amount: int) {
    t in s.txns && s.txns[t].request.Webhook? && s.txns[t].request.amount == amount
  }

  /** An order is PAID exactly when some webhook has taken its payment. */
  lemma PaidMeansPaidBy(s: State, oid: OrderId)
    requires Inv(s)
    ensures oid in s.tables.orders && s.tables.orders[oid].status == Settled <==> exists t :: PaidBy(s, t, oid)
  {
    hide LocksMatch, AllFit, IdsFresh, EarlyEntries, OutcomesExplained;
    if oid in s.tables.orders && s.tables.orders[oid].status == Settled {
      var i := SettledWasPaid(s.history, oid);
      assert EntryFits(s, i);
      assert PaidBy(s, s.history[i].txn, oid);
    }
    if t :| PaidBy(s, t, oid) {
      PaymentIsRecorded(s, t);
    }
  }

  lemma PaymentIsRecorded(s: State, t: TxnId)
    requires Inv(s) && t in s.txns && s.txns[t].pc == Finished(PaymentTaken)
    ensures var r, u := s.txns[t].request, s.tables;
            && r.Webhook? && r.success && r.order.Some? && r.order.value in u.orders && u.orders[r.order.value].status == Settled
            && Payment(r.order.value, r.amount) in u.payments
  {
    hide LocksMatch, AllFit, IdsFresh, EarlyEntries, OutcomesExplained;
    var i: nat :| EnteredAt(s, t, i);
    assert EntryFits(s, i);
    TakenIsRecorded(s.history, i);
  }

  lemma {:induction false} OnePaymentCounts(payments: seq<Payment>, k: nat)
    requires k < |payments|
    ensures 1 <= CountPayments(payments, payments[k].order)
  {
    if k < |payments| - 1 {
      OnePaymentCounts(payments[..|payments| - 1], k);
    }
  }

  lemma {:induction false} TwoPaymentsCount(payments: seq<Payment>, j: nat, k: nat)
    requires j < k < |payments| && payments[j].order == payments[k].order
    ensures 2 <= CountPayments(payments, payments[k].order)
  {
    if k < |payments| - 1 {
      TwoPaymentsCount(payments[..|payments| - 1], j, k);
    } else {
      OnePaymentCounts(payments[..|payments| - 1], j);
    }
  }

  lemma SolePayment(payments: seq<Payment>, k: nat, p: Payment)
    requires CountPayments(payments, p.order) <= 1 && p in payments && k < |payments| && payments[k].order == p.order
    ensures payments[k] == p
  {
    var j: nat :| j < |payments| && payments[j] == p;
    hide CountPayments;
    if j < k {
      TwoPaymentsCount(payments, j, k);
    } else if k < j {
      TwoPaymentsCount(payments, k, j);
    }
  }

  lemma PayerSucceeded(trace: seq<State>, n: nat, t: TxnId, oid: OrderId)
    requires Run(trace) && n < |trace| && PaidBy(trace[n], t, oid)
    ensures Succeeded(trace[n], t)
  {
    RunsKeep(trace, n);
    PaymentIsRecorded(trace[n], t);
    hide Run, Inv;
  }

  lemma PayersAgree(trace: seq<State>, n: nat, t: TxnId, u: TxnId, oid: OrderId)
    requires Run(trace) && n < |trace| && PaidBy(trace[n], t, oid) && PaidBy(trace[n], u, oid)
    ensures t == u
  {
    if t != u {
      EachDeedOnce(trace, n, t, u, PaymentTaken, PaymentTaken);
    }
    hide Run;
  }

  lemma PaymentIsTheOne(trace: seq<State>, n: nat, t: TxnId, oid: OrderId, k: nat)
    requires Run(trace) && n < |trace| && PaidBy(trace[n], t, oid)
    requires k < |trace[n].tables.payments| && trace[n].tables.payments[k].order == oid
    ensures Carries(trace[n], t, trace[n].tables.payments[k].amount)
  {
    RunsKeep(trace, n);
    RunsStaySound(trace, n);
    PaymentIsRecorded(trace[n], t);
    assert PaymentsMatch(trace[n].tables);
    SolePayment(trace[n].tables.payments, k, Payment(oid, trace[n].txns[t].request.amount));
    hide *;
  }

  /** The payment of an order is the one its webhook carried: an order is PAID exactly when some webhook
      has taken its payment, no other has, that webhook reported a success, and what is recorded is its
      amount. */
  lemma PaidByOneWebhook(trace: seq<State>, n: nat, oid: OrderId)
    requires Run(trace) && n < |trace|
    ensures oid in trace[n].tables.orders && trace[n].tables.orders[oid].status == Settled <==> exists t :: PaidBy(trace[n], t, oid)
    ensures forall t, u :: PaidBy(trace[n], t, oid) && PaidBy(trace[n], u, oid) ==> t == u
    ensures forall t :: PaidBy(trace[n], t, oid) ==> Succeeded(trace[n], t)
    ensures forall t, k :: PaidBy(trace[n], t, oid) && 0 <= k < |trace[n].tables.payments| && trace[n].tables.payments[k].order == oid
              ==> Carries(trace[n], t, trace[n].tables.payments[k].amount)
  {
    RunsKeep(trace, n);
    PaidMeansPaidBy(trace[n], oid);
    hide *;
    forall t, u | PaidBy(trace[n], t, oid) && PaidBy(trace[n], u, oid)
      ensures t == u
    {
      PayersAgree(trace, n, t, u, oid);
    }
    forall t | PaidBy(trace[n], t, oid)
      ensures Succeeded(trace[n], t)
    {
      PayerSucceeded(trace, n, t, oid);
    }
    forall t, k | PaidBy(trace[n], t, oid) && 0 <= k < |trace[n].tables.payments| && trace[n].tables.payments[k].order == oid
      ensures Carries(trace[n], t, trace[n].tables.payments[k].amount)
    {
      PaymentIsTheOne(trace, n, t, oid, k);
    }
  }

  /** Between two states, webhook `t` took the payment for an order of the pool with something to pay. */
  ghost predicate PaidBetween(s: State, s': State, pid: PoolId, t: TxnId, oid: OrderId) {
    && !PaidBy(s, t, oid) && PaidBy(s', t, oid)
    && oid in s'.tables.orders && s'.tables.orders[oid].pool == pid && s'.tables.orders[oid].total > 0
  }

  /** What makes an order PAID in between: a webhook that took its payment in between. */
  lemma PaidSinceByWebhook(trace: seq<State>, i: nat, n: nat, pid: PoolId, oid: OrderId)
    requires Run(trace) && i <= n < |trace|
    ensures PaidSince(trace[i].tables.orders, trace[n].tables.orders, pid, oid)
       <==> exists t :: PaidBetween(trace[i], trace[n], pid, t, oid)
  {
    PaidByOneWebhook(trace, i, oid);
    PaidByOneWebhook(trace, n, oid);
    hide Run;
    if u :| PaidBy(trace[i], u, oid) {
      SameRequest(trace, i, n, u);
      assert PaidBy(trace[n], u, oid);
    } else if t :| PaidBy(trace[n], t, oid) {
      assert oid in trace[n].tables.orders && trace[n].tables.orders[oid].pool == pid && trace[n].tables.orders[oid].total > 0
        ==> PaidBetween(trace[i], trace[n], pid, t, oid);
    }
  }

  /** A share-out falls short of what its pool has earned exactly when some webhook took a payment for
      the pool after the revenue was read. */
  lemma LateMoneyIsNotShared(trace: seq<State>, n: nat, t: TxnId, rows: seq<PayoutRow>) returns (i: nat)
    requires Run(trace) && n < |trace| && t in trace[n].txns && trace[n].txns[t].pc == Finished(Distributed(rows))
    ensures trace[n].txns[t].request.Distribute?
    ensures i < n && ReadsRevenue(trace[i], trace[i + 1], t, rows)
    ensures var pid := trace[n].txns[t].request.pid;
            Paid(rows) < Revenue(trace[n].tables.orders, pid) <==> exists u, oid :: PaidBetween(trace[i], trace[n], pid, u, oid)
  {
    i := PayoutsAreTheRevenueRead(trace, n, t, rows);
    var pid := trace[n].txns[t].request.pid;
    hide *;
    if oid :| PaidSince(trace[i].tables.orders, trace[n].tables.orders, pid, oid) {
      PaidSinceByWebhook(trace, i, n, pid, oid);
    }
    if u, oid :| PaidBetween(trace[i], trace[n], pid, u, oid) {
      PaidSinceByWebhook(trace, i, n, pid, oid);
    }
  }

  // ---------------------------------------------------------------------------------------------
  // Payments against revenue
  // ---------------------------------------------------------------------------------------------

  /** What has been paid for the orders of a pool. */
  function PaymentsIn(payments: seq<Payment>, orders: map<OrderId, Order>, pid: PoolId): int {
    if payments == [] then 0 else
      var last := payments[|payments| - 1];
      PaymentsIn(payments[..|payments| - 1], orders, pid)
      + if last.order in orders && orders[last.order].pool == pid then last.amount else 0
  }

  /** By how much these payments exceed the totals of their orders; negative if they fall short. */
  function Surplus(payments: seq<Payment>, orders: map<OrderId, Order>, pid: PoolId): int {
    if payments == [] then 0 else
      var last := payments[|payments| - 1];
      Surplus(payments[..|payments| - 1], orders, pid)
      + if last.order in orders && orders[last.order].pool == pid then last.amount - orders[last.order].total else 0
  }

  lemma {:induction false} PaymentsStay(payments: seq<Payment>, before: map<OrderId, Order>, after: map<OrderId, Order>, pid: PoolId)
    requires forall oid :: oid in before ==> oid in after && after[oid].pool == before[oid].pool && after[oid].total == before[oid].total
    requires forall oid :: oid in after && oid !in before ==> CountPayments(payments, oid) == 0
    ensures PaymentsIn(payments, after, pid) == PaymentsIn(payments, before, pid)
    ensures Surplus(payments, after, pid) == Surplus(payments, before, pid)
  {
    if payments != [] {
      PaymentsStay(payments[..|payments| - 1], before, after, pid);
    }
  }

  /** What was paid is what was earned, up to the surplus. */
  ghost predicate Balanced(t: Tables, pid: PoolId) {
    PaymentsIn(t.payments, t.orders, pid) == Revenue(t.orders, pid) + Surplus(t.payments, t.orders, pid)
  }

  /** An order that becomes settled adds its total. */
  lemma SettlingEarns(orders: map<OrderId, Order>, oid: OrderId, pid: PoolId)
    requires oid in orders && orders[oid].status != Settled
    ensures Revenue(orders[oid := orders[oid].(status := Settled)], pid)
         == Revenue(orders, pid) + if orders[oid].pool == pid then orders[oid].total else 0
  {
    RevenueWrite(orders, oid, orders[oid].(status := Settled), pid);
    hide Revenue;
  }

  lemma PaymentBalances(t: Tables, oid: OrderId, amount: int, pid: PoolId)
    requires Balanced(t, pid) && PaymentsMatch(t) && oid in t.orders && t.orders[oid].status != Settled
    ensures Balanced(AddPayment(t, oid, amount), pid)
  {
    var u := AddPayment(t, oid, amount);
    hide Revenue;
    PaymentsStay(t.payments, t.orders, u.orders, pid);
    assert u.payments[..|u.payments| - 1] == t.payments;
    SettlingEarns(t.orders, oid, pid);
  }

  /** An order that is not settled adds nothing to the revenue. */
  lemma UnsettledEarnsNothing(orders: map<OrderId, Order>, oid: OrderId, order: Order, pid: PoolId)
    requires order.status != Settled && (oid in orders ==> orders[oid].status != Settled)
    ensures Revenue(orders[oid := order], pid) == Revenue(orders, pid)
  {
    RevenueWrite(orders, oid, order, pid);
    hide Revenue;
  }

  lemma OrderBalances(t: Tables, r: Request, pid: PoolId)
    requires Balanced(t, pid) && PaymentsMatch(t) && r.PlaceOrder?
    ensures Balanced(ServeOrder(t, r).tables, pid)
  {
    var u := ServeOrder(t, r).tables;
    hide Revenue;
    if ServeOrder(t, r).outcome.Placed? {
      PaymentsStay(t.payments, t.orders, u.orders, pid);
      UnsettledEarnsNothing(t.orders, r.oid, u.orders[r.oid], pid);
    }
  }

  lemma ExpiryBalances(t: Tables, r: Request, pid: PoolId)
    requires Balanced(t, pid) && r.ExpireOrder?
    ensures Balanced(ServeExpiry(t, r).tables, pid)
  {
    var u := ServeExpiry(t, r).tables;
    hide Revenue;
    if ServeExpiry(t, r).outcome == Released {
      PaymentsStay(t.payments, t.orders, u.orders, pid);
      UnsettledEarnsNothing(t.orders, r.oid, u.orders[r.oid], pid);
    }
  }

  lemma SameBalance(t: Tables, u: Tables, pid: PoolId)
    requires Balanced(t, pid)
    ensures u.orders == t.orders && u.payments == t.payments ==> Balanced(u, pid)
  {
  }

  lemma WebhookBalances(t: Tables, r: Request, pid: PoolId)
    requires r.Webhook? && PaymentsMatch(t) && Balanced(t, pid)
    ensures Balanced(Serve(t, r).tables, pid)
  {
    assert Serve(t, r) == ServeWebhook(t, r);
    var recorded := AddEvent(t, r.event, r.reference);
    SameBalance(t, recorded, pid);
    EventKeepsPayments(t, r.event, r.reference);
    hide Serve, Balanced, PaymentsMatch, CountPayments;
    if ServeWebhook(t, r).outcome == PaymentTaken {
      PaymentBalances(recorded, r.order.value, r.amount, pid);
    }
  }

  lemma ServeBalances(t: Tables, released: set<OrderId>, r: Request, pid: PoolId)
    requires Sound(t, released) && Balanced(t, pid)
    ensures Balanced(Serve(t, r).tables, pid)
  {
    assert PaymentsMatch(t);
    hide Sound, Balanced, PaymentsMatch, PayoutsFor, Ordered, Revenue, CountPayments;
    match r
    case PlaceOrder(_, _, _, _, _, _) => OrderBalances(t, r, pid);
    case ExpireOrder(_, _) => ExpiryBalances(t, r, pid);
    case Webhook(_, _, _, _, _) => WebhookBalances(t, r, pid);
    case _ => SameBalance(t, Serve(t, r).tables, pid);
  }

  lemma EventKeepsPayments(t: Tables, event: EventId, reference: string)
    requires PaymentsMatch(t)
    ensures PaymentsMatch(AddEvent(t, event, reference))
  {
  }

  lemma {:induction false} ReplayBalances(h: seq<Entry>, pid: PoolId)
    ensures Balanced(Replay(h), pid)
  {
    if h == [] {
      AllZero(Earnings(map[], pid));
    } else {
      var front, last := h[..|h| - 1], h[|h| - 1];
      ReplayBalances(front, pid);
      ReplaySound(front);
      hide Balanced, Sound, Serve;
      if last.done {
        ServeBalances(Replay(front), ReleasedIn(front), last.request, pid);
      }
    }
  }

  // ---------------------------------------------------------------------------------------------
  // Payments of the amount that was initialised
  // ---------------------------------------------------------------------------------------------

  /** A payment carries the total of its order. */
  ghost predicate Honest(t: Tables, r: Request) {
    r.Webhook? && r.order.Some? && r.order.value in t.orders ==> r.amount == t.orders[r.order.value].total
  }

  /** Every payment recorded is of its order's total. */
  ghost predicate AllExact(t: Tables) {
    forall i :: 0 <= i < |t.payments| ==> t.payments[i].order in t.orders && t.payments[i].amount == t.orders[t.payments[i].order].total
  }

  lemma {:induction false} NoSurplus(payments: seq<Payment>, orders: map<OrderId, Order>, pid: PoolId)
    requires forall i :: 0 <= i < |payments| ==> payments[i].order in orders && payments[i].amount == orders[payments[i].order].total
    ensures Surplus(payments, orders, pid) == 0
  {
    if payments != [] {
      NoSurplus(payments[..|payments| - 1], orders, pid);
    }
  }

  lemma ServeExact(t: Tables, r: Request)
    requires AllExact(t) && (Serve(t, r).outcome == PaymentTaken ==> Honest(t, r))
    ensures AllExact(Serve(t, r).tables)
  {
    ServeGrows(t, r);
    var u := Serve(t, r).tables;
    assert u.payments == t.payments
        || (r.Webhook? && Serve(t, r).outcome == PaymentTaken && r.order.value in t.orders && u.payments == t.payments + [Payment(r.order.value, r.amount)]) by {
      hide PayoutsFor, Ordered, Revenue, Grows;
    }
    hide Serve, PoolsKeep, FrozenKeep;
  }

  ghost predicate HonestHistory(h: seq<Entry>) {
    forall i :: 0 <= i < |h| && h[i].done && h[i].outcome == PaymentTaken ==> Honest(Replay(h[..i]), h[i].request)
  }

  lemma HonestFront(h: seq<Entry>)
    requires HonestHistory(h) && h != []
    ensures HonestHistory(h[..|h| - 1])
    ensures h[|h| - 1].done && h[|h| - 1].outcome == PaymentTaken ==> Honest(Replay(h[..|h| - 1]), h[|h| - 1].request)
  {
    var front := h[..|h| - 1];
    forall i | 0 <= i < |front| && front[i].done && front[i].outcome == PaymentTaken
      ensures Honest(Replay(front[..i]), front[i].request)
    {
      assert front[..i] == h[..i];
    }
  }

  lemma {:induction false} ReplayExact(h: seq<Entry>)
    requires OutcomesExplained(h) && HonestHistory(h)
    ensures AllExact(Replay(h))
  {
    if h != [] {
      var front, last := h[..|h| - 1], h[|h| - 1];
      OutcomesOfFront(h);
      HonestFront(h);
      ReplayExact(front);
      hide AllExact, Honest, Serve, HonestHistory, OutcomesExplained;
      if last.done {
        ServeExact(Replay(front), last.request);
      }
    }
  }

  /** Every webhook that has taken a payment carried the total of its order, which is the amount the
      payment was initialised with. */
  ghost predicate PaidAsInitialised(s: State) {
    forall t :: t in s.txns && s.txns[t].request.Webhook? && s.txns[t].pc == Finished(PaymentTaken) ==> Honest(s.tables, s.txns[t].request)
  }

  lemma HonestInHistory(s: State)
    requires Inv(s) && PaidAsInitialised(s)
    ensures HonestHistory(s.history)
  {
    var h := s.history;
    hide LocksMatch, AllFit, IdsFresh, EarlyEntries, OutcomesExplained, Serve;
    forall i | 0 <= i < |h| && h[i].done && h[i].outcome == PaymentTaken
      ensures Honest(Replay(h[..i]), h[i].request)
    {
      assert EntryFits(s, i);
      ReplayGrows(h, i, |h|);
      assert h[..|h|] == h;
    }
  }

  /** Every payment is of its order's total exactly when every webhook that has taken one carried it. */
  lemma ExactMeansInitialised(s: State)
    requires Inv(s)
    ensures AllExact(s.tables) <==> PaidAsInitialised(s)
  {
    if PaidAsInitialised(s) {
      HonestInHistory(s);
      ReplayExact(s.history);
    }
    if AllExact(s.tables) {
      forall t | t in s.txns && s.txns[t].request.Webhook? && s.txns[t].pc == Finished(PaymentTaken)
        ensures Honest(s.tables, s.txns[t].request)
      {
        PaymentIsRecorded(s, t);
      }
    }
    hide LocksMatch, AllFit, IdsFresh, EarlyEntries, HistoryMatches, OutcomesExplained, HonestHistory, Honest;
  }

  /** In every state of every run: no order has been paid other than its total if and only if each
      webhook that took a payment carried the total of its order, the amount initialised. */
  lemma PaidExactlyIffInitialised(trace: seq<State>, n: nat)
    requires Run(trace) && n < |trace|
    ensures AllExact(trace[n].tables) <==> PaidAsInitialised(trace[n])
  {
    RunsKeep(trace, n);
    ExactMeansInitialised(trace[n]);
    hide Run, Inv, AllExact, PaidAsInitialised;
  }

  lemma InitialisedHasNoSurplus(s: State, pid: PoolId)
    requires Inv(s) && PaidAsInitialised(s)
    ensures Surplus(s.tables.payments, s.tables.orders, pid) == 0
  {
    ExactMeansInitialised(s);
    NoSurplus(s.tables.payments, s.tables.orders, pid);
    hide LocksMatch, AllFit, IdsFresh, EarlyEntries, HistoryMatches, OutcomesExplained, HonestHistory, PaidAsInitialised, Surplus;
  }

  /** In every state the payments of a pool are its revenue, up to what payments exceeded or fell
      short of the totals of their orders; which is nothing if each webhook carried the amount
      initialised. */
  lemma PaymentsAreRevenue(trace: seq<State>, n: nat, pid: PoolId)
    requires Run(trace) && n < |trace|
    ensures var t := trace[n].tables; PaymentsIn(t.payments, t.orders, pid) == Revenue(t.orders, pid) + Surplus(t.payments, t.orders, pid)
    ensures var t := trace[n].tables; PaidAsInitialised(trace[n]) ==> PaymentsIn(t.payments, t.orders, pid) == Revenue(t.orders, pid)
  {
    RunsKeep(trace, n);
    ReplayBalances(trace[n].history, pid);
    if PaidAsInitialised(trace[n]) {
      InitialisedHasNoSurplus(trace[n], pid);
    }
    hide Run, PaidAsInitialised, Surplus, PaymentsIn, Revenue;
  }

  lemma PaidAsInitialisedBefore(trace: seq<State>, i: nat, n: nat)
    requires Run(trace) && i <= n < |trace| && PaidAsInitialised(trace[n])
    ensures PaidAsInitialised(trace[i])
  {
    RunsGrow(trace, i, n);
    hide Run, PoolsKeep, FrozenKeep;
    var s := trace[i];
    forall t | t in s.txns && s.txns[t].request.Webhook? && s.txns[t].pc == Finished(PaymentTaken)
      ensures Honest(s.tables, s.txns[t].request)
    {
      SameRequest(trace, i, n, t);
    }
  }

  /** And a share-out pays what the pool's buyers had paid when the revenue was read, less that
      surplus. */
  lemma PayoutsArePayments(trace: seq<State>, n: nat, t: TxnId, rows: seq<PayoutRow>) returns (i: nat)
    requires Run(trace) && n < |trace| && t in trace[n].txns && trace[n].txns[t].pc == Finished(Distributed(rows))
    ensures trace[n].txns[t].request.Distribute?
    ensures i < n && ReadsRevenue(trace[i], trace[i + 1], t, rows)
    ensures var u, pid := trace[i].tables, trace[n].txns[t].request.pid;
            Paid(rows) == PaymentsIn(u.payments, u.orders, pid) - Surplus(u.payments, u.orders, pid)
    ensures var u, pid := trace[i].tables, trace[n].txns[t].request.pid;
            PaidAsInitialised(trace[n]) ==> Paid(rows) == PaymentsIn(u.payments, u.orders, pid)
  {
    i := PayoutsAreTheRevenueRead(trace, n, t, rows);
    if PaidAsInitialised(trace[n]) {
      PaidAsInitialisedBefore(trace, i, n);
    }
    PaymentsAreRevenue(trace, i, trace[n].txns[t].request.pid);
    hide Run, PaidAsInitialised, Revenue, PaymentsIn, Surplus, ReadsRevenue;
  }

  // ---------------------------------------------------------------------------------------------
  // Initialising a payment
  // ---------------------------------------------------------------------------------------------

  datatype Initialised = NoSuchOrder | NotOwned | NotPending | Asked(kobo: nat)

  /** payments/service.py: initialize_payment. Order totals are decimals with two places. */
  function InitializePayment(t: Tables, buyer: BuyerId, oid: OrderId): Initialised {
    if oid !in t.orders then NoSuchOrder
    else if t.orders[oid].buyer != buyer then NotOwned
    else if t.orders[oid].status != Pending then NotPending
    else Asked(AmountKobo(Decimal(t.orders[oid].total, -2)))
  }

  /** When payment is refused, and what is asked otherwise. */
  lemma InitializeMeaning(t: Tables, buyer: BuyerId, oid: OrderId)
    ensures var asked := InitializePayment(t, buyer, oid);
            && (oid !in t.orders <==> asked == NoSuchOrder)
            && (oid in t.orders && t.orders[oid].buyer != buyer <==> asked == NotOwned)
            && (oid in t.orders && t.orders[oid].buyer == buyer && t.orders[oid].status != Pending <==> asked == NotPending)
            && (oid in t.orders && t.orders[oid].buyer == buyer && t.orders[oid].status == Pending <==> asked.Asked?)
            && (asked.Asked? && t.orders[oid].total * 100 < LIMIT ==> asked == Asked(t.orders[oid].total))
  {
    if oid in t.orders && t.orders[oid].total * 100 < LIMIT {
      PaidIsWhatWasAsked(t.orders[oid].total);
    }
    hide AmountKobo, SameValue, PaidAmount;
  }

  /** Money end to end: a pending order of this buyer is asked for exactly its price times quantity;
      a webhook that carries the amount asked, however much later, books the order's total. */
  lemma InitialisedIsHonest(trace: seq<State>, m: nat, n: nat, buyer: BuyerId, oid: OrderId, r: Request)
    requires Run(trace) && m <= n < |trace| && r.Webhook? && r.order == Some(oid)
    requires oid in trace[m].tables.orders && trace[m].tables.orders[oid].total * 100 < LIMIT
    requires InitializePayment(trace[m].tables, buyer, oid).Asked?
    ensures var t := trace[m].tables; var order, asked := t.orders[oid], InitializePayment(t, buyer, oid).kobo;
            && order.buyer == buyer && order.status == Pending
            && order.pool in t.pools && asked == order.total == t.pools[order.pool].price * order.qty
            && (r.amount == asked ==> Honest(trace[n].tables, r))
            && SameValue(PaidAmount(asked), Decimal(order.total, -2))
  {
    RunsStaySound(trace, m);
    RunsGrow(trace, m, n);
    PaidIsWhatWasAsked(trace[m].tables.orders[oid].total);
    hide Run, Swept, IndexSound, PaymentsMatch, AllocationsMatch, PayoutsEarned, StatusesSound, PoolsKeep, FrozenKeep;
    hide AmountKobo, SameValue, PaidAmount, Sum;
  }
}
