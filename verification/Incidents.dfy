/** Concrete runs in which properties one might expect of the system fail. Modules Guarantees,
    Answers and Deliveries state exactly when they hold. */
module Incidents {
  import opened Common
  import opened PayoutSplit
  import opened Ledger
  import opened LedgerLaws
  import opened Transactions
  import opened Serializability
  import opened SerialRuns
  import opened Guarantees
  import opened Answers

  function Sold(total: nat, status: OrderStatus, buyer: BuyerId, at: int): Order {
    Order(0, buyer, 5, total, status, None, at)
  }

  /** A pool of five, ordered in full, ... */
  function Ordered5(): seq<Request> {
    [CreatePool(0, 1)] + [Contribute(0, 0, 5)] + [PlaceOrder(0, 1, 0, 5, None, 0)]
  }

  /** ... swept, and ordered in full again ... */
  function OrderedAgain(): seq<Request> {
    Ordered5() + [ExpireOrder(0, 1)] + [PlaceOrder(1, 2, 0, 5, None, 2)]
  }

  /** ... and then both buyers' charges succeed. */
  function TwoBuyers(): seq<Request> {
    OrderedAgain() + [Webhook("a", true, "0", Some(0), 5)] + [Webhook("b", true, "1", Some(1), 5)]
  }

  lemma FirstOrder() returns (t: Tables)
    ensures t == ServeAll(EMPTY_TABLES, Ordered5())
    ensures t.pools == map[0 := Pool(1, 5, 0, true)] && t.orders == map[0 := Sold(5, Pending, 1, 0)]
    ensures t.payments == [] && t.events == map[] && t.keyIndex == map[] && t.allocations == [Allocation(0, 0, 5)]
    ensures t.contributions == map[0 := [Contribution(0, 5)]] && t.payouts == map[]
  {
    ServeOneMore(EMPTY_TABLES, [], CreatePool(0, 1));
    ServeOneMore(EMPTY_TABLES, [CreatePool(0, 1)], Contribute(0, 0, 5));
    ServeOneMore(EMPTY_TABLES, [CreatePool(0, 1)] + [Contribute(0, 0, 5)], PlaceOrder(0, 1, 0, 5, None, 0));
    assert [] + [CreatePool(0, 1)] == [CreatePool(0, 1)];
    t := ServeAll(EMPTY_TABLES, Ordered5());
    var t1 := ServeAll(EMPTY_TABLES, [CreatePool(0, 1)]);
    assert t1.pools == map[0 := Pool(1, 0, 0, true)] && t1.orders == map[] && t1.contributions == map[] && t1.payouts == map[];
    var t2 := ServeAll(EMPTY_TABLES, [CreatePool(0, 1)] + [Contribute(0, 0, 5)]);
    assert Of(t1.contributions, 0) + [Contribution(0, 5)] == [Contribution(0, 5)];
    assert t2.pools == map[0 := Pool(1, 5, 5, true)] && t2.orders == map[] && t2.contributions == map[0 := [Contribution(0, 5)]];
  }

  lemma SweptAndSoldAgain(t: Tables) returns (u: Tables)
    requires t.pools == map[0 := Pool(1, 5, 0, true)] && t.orders == map[0 := Sold(5, Pending, 1, 0)]
    requires t.payments == [] && t.events == map[] && t.allocations == [Allocation(0, 0, 5)]
    ensures Serve(t, ExpireOrder(0, 1)).outcome == Released
    ensures u == Serve(Serve(t, ExpireOrder(0, 1)).tables, PlaceOrder(1, 2, 0, 5, None, 2)).tables
    ensures u.pools == map[0 := Pool(1, 5, 0, true)]
    ensures u.orders == map[0 := Sold(5, Expired, 1, 0), 1 := Sold(5, Pending, 2, 2)]
    ensures u.payments == [] && u.events == map[] && u.allocations == [Allocation(0, 0, 5), Allocation(1, 0, 5)]
    ensures u.contributions == t.contributions && u.payouts == t.payouts
  {
    var swept := Serve(t, ExpireOrder(0, 1)).tables;
    assert swept.pools == map[0 := Pool(1, 5, 5, true)] && swept.orders == map[0 := Sold(5, Expired, 1, 0)];
    u := Serve(swept, PlaceOrder(1, 2, 0, 5, None, 2)).tables;
  }

  /** A charge for an order that is not settled succeeds. */
  lemma ChargeSucceeds(t: Tables, r: Request) returns (u: Tables)
    requires r.Webhook? && r.event !in t.events && Pays(t, r) && CountPayments(t.payments, r.order.value) == 0
    ensures u == Serve(t, r).tables && u.pools == t.pools && u.contributions == t.contributions && u.payouts == t.payouts
    ensures u.orders == t.orders[r.order.value := t.orders[r.order.value].(status := Settled)]
    ensures u.payments == t.payments + [Payment(r.order.value, r.amount)] && u.events == t.events[r.event := r.reference]
  {
    u := Serve(t, r).tables;
  }

  lemma FirstCharged(t: Tables) returns (u: Tables)
    requires t.pools == map[0 := Pool(1, 5, 0, true)]
    requires t.orders == map[0 := Sold(5, Expired, 1, 0), 1 := Sold(5, Pending, 2, 2)]
    requires t.payments == [] && t.events == map[]
    ensures u == Serve(t, Webhook("a", true, "0", Some(0), 5)).tables
    ensures u.pools == t.pools && u.payments == [Payment(0, 5)] && u.events == map["a" := "0"]
    ensures u.contributions == t.contributions && u.payouts == t.payouts
    ensures u.orders == map[0 := Sold(5, Settled, 1, 0), 1 := Sold(5, Pending, 2, 2)]
  {
    hide Serve;
    u := ChargeSucceeds(t, Webhook("a", true, "0", Some(0), 5));
  }

  lemma SecondCharged(t: Tables) returns (u: Tables)
    requires t.orders == map[0 := Sold(5, Settled, 1, 0), 1 := Sold(5, Pending, 2, 2)]
    requires t.payments == [Payment(0, 5)] && t.events == map["a" := "0"]
    ensures u == Serve(t, Webhook("b", true, "1", Some(1), 5)).tables
    ensures u.pools == t.pools && u.payouts == t.payouts
    ensures u.orders == map[0 := Sold(5, Settled, 1, 0), 1 := Sold(5, Settled, 2, 2)]
  {
    hide Serve;
    assert CountPayments(t.payments[..0], 1) == 0 && CountPayments(t.payments, 1) == 0;
    assert "b" != "a";
    u := ChargeSucceeds(t, Webhook("b", true, "1", Some(1), 5));
  }

  lemma BothPaid() returns (t: Tables)
    ensures t == ServeAll(EMPTY_TABLES, TwoBuyers())
    ensures t.pools == map[0 := Pool(1, 5, 0, true)]
    ensures t.orders == map[0 := Sold(5, Settled, 1, 0), 1 := Sold(5, Settled, 2, 2)]
    ensures Serve(ServeAll(EMPTY_TABLES, Ordered5()), ExpireOrder(0, 1)).outcome == Released
  {
    hide ServeAll, Serve, Ordered5;
    var ordered := FirstOrder();
    ServeOneMore(EMPTY_TABLES, Ordered5(), ExpireOrder(0, 1));
    ServeOneMore(EMPTY_TABLES, Ordered5() + [ExpireOrder(0, 1)], PlaceOrder(1, 2, 0, 5, None, 2));
    var again := SweptAndSoldAgain(ordered);
    assert again == ServeAll(EMPTY_TABLES, OrderedAgain());
    hide OrderedAgain;
    ServeOneMore(EMPTY_TABLES, OrderedAgain(), Webhook("a", true, "0", Some(0), 5));
    ServeOneMore(EMPTY_TABLES, OrderedAgain() + [Webhook("a", true, "0", Some(0), 5)], Webhook("b", true, "1", Some(1), 5));
    var between := FirstCharged(again);
    t := SecondCharged(between);
  }

  lemma TwoBuyersInOrder()
    ensures |TwoBuyers()| == 7 && TwoBuyers()[3] == ExpireOrder(0, 1) && TwoBuyers()[..3] == Ordered5()
    ensures forall i, j :: 0 <= i < j < 7 ==> !SameId(TwoBuyers()[i], TwoBuyers()[j])
    ensures forall i :: 0 <= i < 7 && TwoBuyers()[i].ExpireOrder? ==> i == 3
  {
  }

  lemma TwoBuyersAdmissible()
    ensures Admissible(TwoBuyers())
  {
    TwoBuyersInOrder();
    var t := FirstOrder();
    hide ServeAll, TwoBuyers, Ordered5, SameId;
  }

  /** There is a run in which a pool of five units has sold ten: payment for a swept order is taken
      although its stock has been sold again. */
  lemma LatePaymentOversells() returns (trace: seq<State>)
    ensures Run(trace)
    ensures End(trace).tables.pools == map[0 := Pool(1, 5, 0, true)]
    ensures End(trace).tables.orders == map[0 := Sold(5, Settled, 1, 0), 1 := Sold(5, Settled, 2, 2)]
    ensures LatePaid(End(trace).tables, Swept(End(trace)), 0)
  {
    var rs := TwoBuyers();
    TwoBuyersInOrder();
    TwoBuyersAdmissible();
    var t := BothPaid();
    hide ServeAll, Ended, TwoBuyers, Run, Serve;
    trace := EverySerialRunArises(rs);
    EndedMeaning(rs, 3);
  }

  // ---------------------------------------------------------------------------------------------
  // More allocated than contributed, and less paid than owed
  // ---------------------------------------------------------------------------------------------

  lemma AllocatedTwice(allocations: seq<Allocation>)
    requires allocations == [Allocation(0, 0, 5), Allocation(1, 0, 5)]
    ensures AllocatedQty(allocations, 0) == 10
  {
    assert allocations[..1] == [Allocation(0, 0, 5)] && allocations[..1][..0] == [];
    assert AllocatedQty(allocations[..1], 0) == 5;
  }

  lemma OrderedAgainTables() returns (t: Tables)
    ensures t == ServeAll(EMPTY_TABLES, OrderedAgain())
    ensures t.pools == map[0 := Pool(1, 5, 0, true)] && t.payments == [] && AllocatedQty(t.allocations, 0) == 10
    ensures t.orders == map[0 := Sold(5, Expired, 1, 0), 1 := Sold(5, Pending, 2, 2)] && t.events == map[]
    ensures t.contributions == map[0 := [Contribution(0, 5)]] && t.payouts == map[]
  {
    hide ServeAll, Serve, Ordered5;
    var ordered := FirstOrder();
    ServeOneMore(EMPTY_TABLES, Ordered5(), ExpireOrder(0, 1));
    ServeOneMore(EMPTY_TABLES, Ordered5() + [ExpireOrder(0, 1)], PlaceOrder(1, 2, 0, 5, None, 2));
    t := SweptAndSoldAgain(ordered);
    AllocatedTwice(t.allocations);
  }

  lemma OrderedAgainAdmissible()
    ensures Admissible(OrderedAgain()) && Admissible(Ordered5())
  {
    TwoBuyersAdmissible();
    hide Admissible;
    AdmissibleFront(TwoBuyers());
    assert TwoBuyers()[..6] == OrderedAgain() + [Webhook("a", true, "0", Some(0), 5)];
    AdmissibleFront(TwoBuyers()[..6]);
    assert TwoBuyers()[..6][..5] == OrderedAgain();
    AdmissibleFront(OrderedAgain());
    assert OrderedAgain()[..4] == Ordered5() + [ExpireOrder(0, 1)];
    AdmissibleFront(OrderedAgain()[..4]);
    assert OrderedAgain()[..4][..3] == Ordered5();
  }

  lemma AdmissibleMore(requests: seq<Request>, r: Request)
    requires Admissible(requests) && (r.Webhook? || r.ClosePool? || r.Distribute?)
    ensures Admissible(requests + [r])
  {
    hide ServeAll;
    assert forall i :: 0 <= i < |requests| ==> (requests + [r])[i] == requests[i] && (requests + [r])[..i] == requests[..i];
  }

  /** There is a run, without any payment, in which ten units of a pool of five are allocated: the
      allocation of a swept order stays. */
  lemma AllocationsExceedContributions() returns (trace: seq<State>)
    ensures Run(trace) && End(trace).tables.pools == map[0 := Pool(1, 5, 0, true)] && End(trace).tables.payments == []
    ensures AllocatedQty(End(trace).tables.allocations, 0) == 10 > End(trace).tables.pools[0].total
  {
    OrderedAgainAdmissible();
    var t := OrderedAgainTables();
    hide ServeAll, OrderedAgain, Run, Ended, AllocatedQty;
    trace := EverySerialRunArises(OrderedAgain());
  }

  /** The buyer of an order of five is charged one. */
  function Underpaid(): seq<Request> {
    Ordered5() + [Webhook("a", true, "0", Some(0), 1)]
  }

  lemma UnderpaidAdmissible()
    ensures Admissible(Underpaid())
  {
    OrderedAgainAdmissible();
    AdmissibleMore(Ordered5(), Webhook("a", true, "0", Some(0), 1));
  }

  lemma UnderpaidTables() returns (t: Tables)
    ensures t == ServeAll(EMPTY_TABLES, Underpaid())
    ensures t.pools == map[0 := Pool(1, 5, 0, true)]
    ensures t.orders == map[0 := Sold(5, Settled, 1, 0)] && t.payments == [Payment(0, 1)]
  {
    hide ServeAll, Serve, Ordered5;
    var ordered := FirstOrder();
    ServeOneMore(EMPTY_TABLES, Ordered5(), Webhook("a", true, "0", Some(0), 1));
    t := ChargeSucceeds(ordered, Webhook("a", true, "0", Some(0), 1));
  }

  /** There is a run in which an order of five is PAID with one: the webhook does not compare the
      amount with the total. */
  lemma UnderpaymentIsTaken() returns (trace: seq<State>)
    ensures Run(trace)
    ensures End(trace).tables.orders == map[0 := Sold(5, Settled, 1, 0)] && End(trace).tables.payments == [Payment(0, 1)]
  {
    UnderpaidAdmissible();
    var t := UnderpaidTables();
    hide ServeAll, Underpaid, Run, Ended;
    trace := EverySerialRunArises(Underpaid());
  }

  // ---------------------------------------------------------------------------------------------
  // Money that is never shared out
  // ---------------------------------------------------------------------------------------------

  /** The first buyer pays, the pool is closed and shared out, ... */
  function SharedOut(): seq<Request> {
    OrderedAgain() + [Webhook("a", true, "0", Some(0), 5)] + [ClosePool(0)] + [Distribute(0, [])]
  }

  /** ... and then the second buyer's charge succeeds. */
  function SharedTooSoon(): seq<Request> {
    SharedOut() + [Webhook("b", true, "1", Some(1), 5)]
  }

  lemma SharedTooSoonAdmissible()
    ensures Admissible(SharedTooSoon())
  {
    OrderedAgainAdmissible();
    hide Admissible;
    AdmissibleMore(OrderedAgain(), Webhook("a", true, "0", Some(0), 5));
    AdmissibleMore(OrderedAgain() + [Webhook("a", true, "0", Some(0), 5)], ClosePool(0));
    AdmissibleMore(OrderedAgain() + [Webhook("a", true, "0", Some(0), 5)] + [ClosePool(0)], Distribute(0, []));
    AdmissibleMore(SharedOut(), Webhook("b", true, "1", Some(1), 5));
  }

  lemma RevenueOfTwo(orders: map<OrderId, Order>, second: OrderStatus)
    requires orders == map[0 := Sold(5, Settled, 1, 0), 1 := Sold(5, second, 2, 2)]
    ensures Revenue(orders, 0) == if second == Settled then 10 else 5
  {
    var none: map<OrderId, Order> := map[];
    RevenueWrite(none, 0, Sold(5, Settled, 1, 0), 0);
    RevenueWrite(none[0 := Sold(5, Settled, 1, 0)], 1, Sold(5, second, 2, 2), 0);
    assert orders == none[0 := Sold(5, Settled, 1, 0)][1 := Sold(5, second, 2, 2)];
    assert Earnings(none, 0) == map[];
  }

  /** Closing and sharing out a pool whose revenue is five. */
  lemma ClosedAndShared(t: Tables) returns (u: Tables)
    requires t.pools == map[0 := Pool(1, 5, 0, true)] && Of(t.payouts, 0) == []
    requires Revenue(t.orders, 0) == 5 && Of(t.contributions, 0) != []
    ensures u == Serve(Serve(t, ClosePool(0)).tables, Distribute(0, [])).tables
    ensures u.orders == t.orders && u.payments == t.payments && u.events == t.events && Paid(Of(u.payouts, 0)) == 5
  {
    var closed := t.(pools := map[0 := Pool(1, 5, 0, false)]);
    assert Serve(t, ClosePool(0)).tables == closed by {
      hide Ordered, PayoutsFor, Revenue;
    }
    u := ClosedIsShared(closed);
    hide Ordered, PayoutsFor, Revenue, Serve;
  }

  lemma ClosedIsShared(t: Tables) returns (u: Tables)
    requires t.pools == map[0 := Pool(1, 5, 0, false)] && Of(t.payouts, 0) == []
    requires Revenue(t.orders, 0) == 5 && Of(t.contributions, 0) != []
    ensures u == Serve(t, Distribute(0, [])).tables
    ensures u.orders == t.orders && u.payments == t.payments && u.events == t.events && Paid(Of(u.payouts, 0)) == 5
  {
    var rows := Ordered(Of(t.contributions, 0), []);
    OrderedMeaning(Of(t.contributions, 0), []);
    PaidInFull(rows, 5);
    u := ServeDistribute(t, Distribute(0, [])).tables;
    assert [] + PayoutsFor(rows, 5) == PayoutsFor(rows, 5);
    hide Ordered, PayoutsFor, Revenue;
  }

  lemma SharedTooSoonTables() returns (t: Tables)
    ensures t == ServeAll(EMPTY_TABLES, SharedTooSoon())
    ensures Revenue(t.orders, 0) == 10 && Paid(Of(t.payouts, 0)) == 5
  {
    hide ServeAll, Serve, OrderedAgain, Revenue;
    var again := OrderedAgainTables();
    var paid := FirstCharged(again);
    RevenueOfTwo(paid.orders, Pending);
    var shared := ClosedAndShared(paid);
    t := SecondCharged(shared);
    RevenueOfTwo(t.orders, Settled);
    var rs := OrderedAgain();
    ServeOneMore(EMPTY_TABLES, rs, Webhook("a", true, "0", Some(0), 5));
    rs := rs + [Webhook("a", true, "0", Some(0), 5)];
    ServeOneMore(EMPTY_TABLES, rs, ClosePool(0));
    rs := rs + [ClosePool(0)];
    ServeOneMore(EMPTY_TABLES, rs, Distribute(0, []));
    ServeOneMore(EMPTY_TABLES, SharedOut(), Webhook("b", true, "1", Some(1), 5));
  }

  /** There is a run in which a pool has earned ten and shares out five, for good: the second order is
      paid after the revenue was read. */
  lemma LateMoneyIsKept() returns (trace: seq<State>)
    ensures Run(trace)
    ensures Revenue(End(trace).tables.orders, 0) == 10 > 5 == Paid(Of(End(trace).tables.payouts, 0))
  {
    SharedTooSoonAdmissible();
    var t := SharedTooSoonTables();
    hide ServeAll, SharedTooSoon, Run, Ended, Revenue, Paid;
    trace := EverySerialRunArises(SharedTooSoon());
  }

  // ---------------------------------------------------------------------------------------------
  // A refused retry
  // ---------------------------------------------------------------------------------------------

  /** The same order, sent twice under one key. */
  function Try(oid: OrderId): Request {
    PlaceOrder(oid, 7, 0, 5, Some("k"), 0)
  }

  function Stocked(): seq<Request> {
    [CreatePool(0, 1), Contribute(0, 0, 5)]
  }

  lemma StockedPool() returns (trace: seq<State>)
    ensures Run(trace) && End(trace).locks == map[] && End(trace).txns.Keys == {0, 1}
    ensures End(trace).tables == ServeAll(EMPTY_TABLES, Stocked())
    ensures End(trace).txns[0].request.CreatePool? && End(trace).txns[1].request.Contribute?
    ensures var t := End(trace).tables; t.pools == map[0 := Pool(1, 5, 5, true)] && t.orders == map[] && t.keyIndex == map[]
  {
    var rs := Stocked();
    ServeOneMore(EMPTY_TABLES, [], rs[0]);
    ServeOneMore(EMPTY_TABLES, [rs[0]], rs[1]);
    assert [] + [rs[0]] == [rs[0]] && [rs[0]] + [rs[1]] == rs;
    trace := EverySerialRunArises(rs);
    assert forall t: TxnId :: t in End(trace).txns <==> t < 2 by {
      forall t: TxnId { EndedMeaning(rs, t); }
    }
    EndedMeaning(rs, 0);
    EndedMeaning(rs, 1);
  }

  /** Served on these tables, the retry places the order or is handed it. */
  ghost predicate HandsItOut(t: Tables) {
    Serve(t, Try(1)).outcome == Placed(1) || Serve(t, Try(1)).outcome == Returned(0)
  }

  /** So it has been ever since the retry arrived. */
  ghost predicate NeverShort(trace: seq<State>) {
    forall i :: 0 <= i < |trace| && 3 in trace[i].txns ==> HandsItOut(trace[i].tables)
  }

  lemma LongerNeverShort(trace: seq<State>, longer: seq<State>)
    requires NeverShort(trace) && |trace| <= |longer| && longer[..|trace|] == trace
    requires forall i :: |trace| <= i < |longer| && 3 in longer[i].txns ==> HandsItOut(longer[i].tables)
    ensures NeverShort(longer)
  {
    hide HandsItOut;
    forall i | 0 <= i < |longer| && 3 in longer[i].txns
      ensures HandsItOut(longer[i].tables)
    {
      assert i < |trace| ==> longer[i] == longer[..|trace|][i] == trace[i];
    }
  }

  lemma FirstIsPlaced(t: Tables)
    requires t.pools == map[0 := Pool(1, 5, 5, true)] && t.orders == map[] && t.keyIndex == map[]
    ensures HandsItOut(t) && Serve(t, Try(0)).outcome == Placed(0)
    ensures var u := Serve(t, Try(0)).tables;
            u.pools == map[0 := Pool(1, 5, 0, true)] && HandsItOut(u) && Serve(u, Try(1)) == Served(u, Returned(0))
  {
  }

  /** The first request has arrived at a pool of five. */
  lemma FirstArrived() returns (trace: seq<State>)
    ensures Run(trace) && At(End(trace), 2, Try(0), Start, map[])
    ensures End(trace).tables.pools == map[0 := Pool(1, 5, 5, true)]
    ensures End(trace).tables.orders == map[] && End(trace).tables.keyIndex == map[]
    ensures 3 !in End(trace).txns && CanBegin(End(trace), 3, Try(1))
  {
    var before := StockedPool();
    var s0 := End(before);
    assert CanBegin(s0, 2, Try(0));
    trace := Longer(before, Begun(s0, 2, Try(0)));
    hide Run, ServeAll;
  }

  lemma RetryReads(s: State)
    requires At(s, 2, Try(0), Start, map[]) && 3 !in s.txns && s.tables.keyIndex == map[]
    ensures var begun := Begun(s, 3, Try(1)); var read := Step(begun, 3);
            && begun.tables == read.tables == s.tables
            && At(read, 2, Try(0), Start, map[]) && At(read, 3, Try(1), WantPool, map[])
  {
  }

  /** The two requests have arrived, and the retry has made its first read. */
  lemma BothArrived() returns (trace: seq<State>)
    ensures Run(trace) && At(End(trace), 2, Try(0), Start, map[]) && At(End(trace), 3, Try(1), WantPool, map[])
    ensures End(trace).tables.pools == map[0 := Pool(1, 5, 5, true)]
    ensures End(trace).tables.orders == map[] && End(trace).tables.keyIndex == map[]
    ensures NeverShort(trace)
  {
    var before := FirstArrived();
    var s := End(before);
    NotYetThere(before, |before| - 1, 3);
    FirstIsPlaced(s.tables);
    RetryReads(s);
    assert NeverShort(before) && Next(s, Begun(s, 3, Try(1)));
    hide Serve, HandsItOut, CanBegin, Step, At, Begun;
    var arrived := Longer(before, Begun(s, 3, Try(1)));
    LongerNeverShort(before, arrived);
    trace := StepLonger(arrived, 3);
    hide Run;
    LongerNeverShort(arrived, trace);
  }

  /** The retry takes the lock on a pool that the first request has emptied. */
  lemma EmptyPoolRefuses(e: State)
    requires At(e, 3, Try(1), WantPool, map[]) && e.tables.pools == map[0 := Pool(1, 5, 0, true)]
    ensures var f := Steps(e, 3, 2);
            && 3 in f.txns && f.txns[3] == Txn(Try(1), Finished(NoStock))
            && forall u :: u in e.txns && u != 3 ==> u in f.txns && f.txns[u] == e.txns[u]
  {
    assert Steps(e, 3, 2) == Steps(Step(e, 3), 3, 1) == Step(Step(e, 3), 3);
    assert At(Step(e, 3), 3, Try(1), HavePool(Pool(1, 5, 0, true)), map[PoolLock(0) := 3]);
  }

  /** The first request has been served to its end while the retry waits for its turn. */
  lemma FirstServed(s: State)
    requires At(s, 2, Try(0), Start, map[]) && At(s, 3, Try(1), WantPool, map[])
    requires s.tables.pools == map[0 := Pool(1, 5, 5, true)] && s.tables.orders == map[] && s.tables.keyIndex == map[]
    ensures var e := Steps(s, 2, 8);
            && At(e, 3, Try(1), WantPool, map[]) && 2 in e.txns && e.txns[2] == Txn(Try(0), Finished(Placed(0)))
            && e.tables == Serve(s.tables, Try(0)).tables
  {
    FirstIsPlaced(s.tables);
    OrderAlone(s, 2, Try(0), 8);
    hide Steps, Serve;
  }

  /** There is a run in which a retry that overlaps the request it repeats is refused for lack of
      stock, although that order is placed and committed: the stock that is missing is its own. The
      refusal has no place in the serial order that respects real time: at no moment since the retry
      arrived would serving it have been refused; it would have placed the order or been handed it. */
  lemma RetryIsRefused() returns (trace: seq<State>)
    ensures Run(trace)
    ensures var e := End(trace);
            && 2 in e.txns && e.txns[2] == Txn(Try(0), Finished(Placed(0)))
            && 3 in e.txns && e.txns[3] == Txn(Try(1), Finished(NoStock))
    ensures forall i :: 0 <= i < |trace| && 3 in trace[i].txns ==> HandsItOut(trace[i].tables)
  {
    var before := BothArrived();
    var s := End(before);
    var t0 := s.tables;
    FirstServed(s);
    FirstIsPlaced(t0);
    hide Run, Serve, Steps, HandsItOut;
    var placed := StepsOnTables(before, 2, 8, t0, Try(0));
    LongerNeverShort(before, placed);
    EmptyPoolRefuses(End(placed));
    trace := StepsOnTables(placed, 3, 2, End(placed).tables, Try(1));
    LongerNeverShort(placed, trace);
    hide Try, OnTables;
  }
}
