/** What the callers are told, over whole runs: retries of an order, share-outs, sweep passes, and the
    order in which committed requests took effect. */
module Answers {
  import opened Common
  import opened PayoutSplit
  import opened Ledger
  import opened LedgerLaws
  import opened Transactions
  import opened SerialOrder
  import opened Serializability
  import opened Progress
  import opened Guarantees

  // ---------------------------------------------------------------------------------------------
  // Idempotent ordering
  // ---------------------------------------------------------------------------------------------

  ghost predicate Answered(s: State, t: TxnId, oid: OrderId) {
    && t in s.txns && s.txns[t].request.PlaceOrder?
    && (s.txns[t].pc == Finished(Placed(oid)) || s.txns[t].pc == Finished(Returned(oid)))
  }

  /** All requests with one (buyer, key) that are handed an order are handed the same one; it is the
      only order under that key, it has one allocation, and one request at most has placed it. */
  lemma OneOrderPerKey(trace: seq<State>, n: nat, t: TxnId, u: TxnId, a: OrderId, b: OrderId)
    requires Run(trace) && n < |trace| && Answered(trace[n], t, a) && Answered(trace[n], u, b)
    requires trace[n].txns[t].request.key.Some?
    requires trace[n].txns[t].request.buyer == trace[n].txns[u].request.buyer
    requires trace[n].txns[t].request.key == trace[n].txns[u].request.key
    ensures var tables, r := trace[n].tables, trace[n].txns[t].request;
            && a == b && a in tables.orders && CountAllocations(tables.allocations, a) == 1
            && (forall oid :: oid in tables.orders && tables.orders[oid].buyer == r.buyer && tables.orders[oid].key == r.key ==> oid == a)
    ensures t != u ==> !(trace[n].txns[t].pc.outcome.Placed? && trace[n].txns[u].pc.outcome.Placed?)
  {
    var s := trace[n];
    RunsKeep(trace, n);
    RunsStaySound(trace, n);
    assert IndexSound(s.tables) && AllocationsMatch(s.tables);
    AnswerIsIndexed(s, t, a);
    AnswerIsIndexed(s, u, b);
    hide Run, Sound, Swept, LocksMatch, EarlyEntries, HistoryMatches, Explained, PoolsExist, AllFit, CountAllocations;
  }

  lemma AnswerIsIndexed(s: State, t: TxnId, oid: OrderId)
    requires AllFit(s) && Answered(s, t, oid) && s.txns[t].request.key.Some?
    ensures var r := s.txns[t].request;
            KeyTaken(s.tables, r) && Existing(s.tables, r) == oid && (s.txns[t].pc.outcome.Placed? ==> r.oid == oid)
  {
    assert Fits(s.tables, s.txns[t].request, s.txns[t].pc);
  }

  /** No request ends in an unhandled constraint violation: the collision on a key never reaches the
      bare re-raise, and a payment never meets another payment of its order. */
  lemma NoIntegrityError(trace: seq<State>, n: nat, t: TxnId)
    requires Run(trace) && n < |trace| && t in trace[n].txns
    ensures trace[n].txns[t].pc != Finished(IntegrityError)
  {
    RunsKeep(trace, n);
    assert Fits(trace[n].tables, trace[n].txns[t].request, trace[n].txns[t].pc);
    hide Run, Inv;
  }

  /** The first read finds the order, or the locked read finds an open pool with enough stock. */
  ghost predicate Succeeds(s: State, t: TxnId) {
    && t in s.txns && s.txns[t].request.PlaceOrder?
    && var r, pc := s.txns[t].request, s.txns[t].pc;
       (pc.Start? && KeyTaken(s.tables, r)) || (pc.HavePool? && pc.row.open && r.qty <= pc.row.available)
  }

  /** Past the point where the request can be refused. */
  ghost predicate Ahead(s: State, t: TxnId) {
    && t in s.txns && s.txns[t].request.PlaceOrder?
    && var pc := s.txns[t].pc;
       pc.WantKey? || pc.Ready? || pc.Reread? || (pc.Finished? && (pc.outcome.Placed? || pc.outcome.Returned?))
  }

  ghost predicate Winning(s: State, t: TxnId) {
    Succeeds(s, t) || Ahead(s, t) || (t in s.txns && s.txns[t].pc == Finished(Aborted))
  }

  lemma OwnStepWins(s: State, t: TxnId)
    requires t in s.txns && s.txns[t].request.PlaceOrder? && Advance(s, t).Went?
    requires Fits(s.tables, s.txns[t].request, s.txns[t].pc)
    ensures Winning(s, t) ==> Winning(Advance(s, t).next, t)
    ensures Ahead(Advance(s, t).next, t) && !Ahead(s, t) ==> Succeeds(s, t)
  {
    hide OrderWritten, EndFits;
  }

  lemma OtherStepWins(s: State, s': State, t: TxnId)
    requires t in s.txns && t in s'.txns && s'.txns[t] == s.txns[t] && Grows(s.tables, s'.tables)
    ensures Winning(s, t) ==> Winning(s', t)
    ensures Ahead(s', t) ==> Ahead(s, t)
  {
    hide OrdersKeep, PoolsKeep, FrozenKeep;
  }

  lemma StepWins(s: State, s': State, t: TxnId)
    requires Inv(s) && Next(s, s') && t in s.txns && s.txns[t].request.PlaceOrder?
    ensures t in s'.txns && s'.txns[t].request == s.txns[t].request
    ensures Winning(s, t) ==> Winning(s', t)
    ensures Ahead(s', t) && !Ahead(s, t) ==> Succeeds(s, t)
  {
    NextKeeps(s, s');
    assert Fits(s.tables, s.txns[t].request, s.txns[t].pc) && Grows(s.tables, s'.tables);
    hide Inv, Advance, Winning, Ahead, Succeeds, Fits, Grows;
    if u, r :| CanBegin(s, u, r) && s' == Begun(s, u, r) {
      OtherStepWins(s, s', t);
    } else if u :| u in s.txns && Advance(s, u) == Went(s') {
      AdvanceMoves(s, u);
      if u == t {
        OwnStepWins(s, t);
      } else {
        OtherStepWins(s, s', t);
      }
    } else {
      var u :| Active(s, u) && s' == LetGo(s, u, Finished(Aborted));
      if u == t {
        assert Winning(s', t) && !Ahead(s', t) by { AbortWins(s, t); }
      } else {
        OtherStepWins(s, s', t);
      }
    }
  }

  lemma AbortWins(s: State, t: TxnId)
    requires t in s.txns
    ensures Winning(LetGo(s, t, Finished(Aborted)), t) && !Ahead(LetGo(s, t, Finished(Aborted)), t)
  {
  }

  ghost predicate SucceedsBefore(trace: seq<State>, n: nat, t: TxnId)
    requires n <= |trace|
  {
    exists i :: 0 <= i < n && Succeeds(trace[i], t)
  }

  lemma OneStepMore(trace: seq<State>, n: nat, t: TxnId)
    requires 0 < n <= |trace|
    ensures SucceedsBefore(trace, n, t) <==> SucceedsBefore(trace, n - 1, t) || Succeeds(trace[n - 1], t)
  {
    hide Succeeds;
  }

  lemma {:induction false} AnswerSoFar(trace: seq<State>, n: nat, t: TxnId)
    requires Run(trace) && n < |trace| && t in trace[n].txns && trace[n].txns[t].request.PlaceOrder?
    ensures SucceedsBefore(trace, n, t) ==> Winning(trace[n], t)
    ensures Ahead(trace[n], t) ==> SucceedsBefore(trace, n, t)
  {
    if n > 0 {
      var s, s' := trace[n - 1], trace[n];
      assert Next(s, s');
      hide *;
      RunsKeep(trace, n - 1);
      SucceedingWins(s, t);
      OneStepMore(trace, n, t);
      if t in s.txns {
        StepStaysItself(s, s', t);
        AnswerSoFar(trace, n - 1, t);
        StepWins(s, s', t);
      } else {
        StartsAtStart(s, s', t);
        NeverSeen(trace, n - 1, t);
      }
    }
  }

  lemma NeverSeen(trace: seq<State>, n: nat, t: TxnId)
    requires Run(trace) && n < |trace| && t !in trace[n].txns
    ensures !SucceedsBefore(trace, n + 1, t)
  {
    NotYetThere(trace, n, t);
    hide Run;
  }

  lemma SucceedingWins(s: State, t: TxnId)
    ensures Succeeds(s, t) ==> Winning(s, t)
  {
  }

  lemma StepStaysItself(s: State, s': State, t: TxnId)
    requires Next(s, s') && t in s.txns
    ensures t in s'.txns && s'.txns[t].request == s.txns[t].request
    ensures s.txns[t].pc.Finished? ==> s'.txns[t] == s.txns[t]
  {
    hide Advance;
    if u :| u in s.txns && Advance(s, u) == Went(s') {
      AdvanceMoves(s, u);
      if s.txns[t].pc.Finished? {
        FinishedIsOver(s, t);
      }
    }
  }

  lemma FinishedIsOver(s: State, t: TxnId)
    requires t in s.txns && s.txns[t].pc.Finished?
    ensures Advance(s, t).Over?
  {
  }

  lemma StartsAtStart(s: State, s': State, t: TxnId)
    requires Next(s, s') && t !in s.txns && t in s'.txns
    ensures s'.txns[t].pc == Start && !Ahead(s', t)
  {
    hide Advance;
    if u :| u in s.txns && Advance(s, u) == Went(s') {
      AdvanceMoves(s, u);
    }
  }

  lemma {:induction false} SameRequest(trace: seq<State>, i: nat, n: nat, t: TxnId)
    requires Run(trace) && i <= n < |trace| && t in trace[i].txns
    ensures t in trace[n].txns && trace[n].txns[t].request == trace[i].txns[t].request
    ensures trace[i].txns[t].pc.Finished? ==> trace[n].txns[t] == trace[i].txns[t]
  {
    hide Next;
    if i < n {
      SameRequest(trace, i, n - 1, t);
      StepStaysItself(trace[n - 1], trace[n], t);
    }
  }

  lemma NotYetThere(trace: seq<State>, n: nat, t: TxnId)
    requires Run(trace) && n < |trace| && t !in trace[n].txns
    ensures forall i :: 0 <= i <= n ==> t !in trace[i].txns
  {
    hide Run;
    forall i | 0 <= i <= n
      ensures t !in trace[i].txns
    {
      if t in trace[i].txns {
        SameRequest(trace, i, n, t);
      }
    }
  }

  /** An order request that is not cut short is handed an order exactly when its first read found
      one under its key, or its locked read found the pool open with enough stock. In particular a
      retry can be refused although the order it retries has been placed meanwhile. */
  lemma WhenAnOrderIsHandedOut(trace: seq<State>, n: nat, t: TxnId)
    requires Run(trace) && n < |trace| && t in trace[n].txns && trace[n].txns[t].request.PlaceOrder?
    requires trace[n].txns[t].pc.Finished? && trace[n].txns[t].pc.outcome != Aborted
    ensures (exists oid :: Answered(trace[n], t, oid)) <==> SucceedsBefore(trace, n, t)
  {
    AnswerSoFar(trace, n, t);
    hide Run, Succeeds;
    if Ahead(trace[n], t) {
      assert Answered(trace[n], t, trace[n].txns[t].pc.outcome.oid);
    }
    if SucceedsBefore(trace, n, t) {
      assert Winning(trace[n], t) && Ahead(trace[n], t) by { FinishedNotSucceeding(trace[n], t); }
    }
  }

  lemma FinishedNotSucceeding(s: State, t: TxnId)
    requires t in s.txns && s.txns[t].pc.Finished?
    ensures !Succeeds(s, t)
  {
  }

  /** What the locked read finds is the committed row at that moment. */
  lemma LockedReadIsCurrent(trace: seq<State>, n: nat, t: TxnId)
    requires Run(trace) && n < |trace| && t in trace[n].txns && trace[n].txns[t].pc.HavePool?
    ensures RowIs(trace[n].tables, PidOf(trace[n].txns[t].request), trace[n].txns[t].pc.row)
  {
    RunsKeep(trace, n);
    assert Fits(trace[n].tables, trace[n].txns[t].request, trace[n].txns[t].pc);
    hide Run, Inv;
  }

  // ---------------------------------------------------------------------------------------------
  // Payouts
  // ---------------------------------------------------------------------------------------------

  /** Between `s` and `s'`, share-out `t` reads the revenue that makes it create `rows`. */
  ghost predicate ReadsRevenue(s: State, s': State, t: TxnId, rows: seq<PayoutRow>) {
    && t in s.txns && t in s'.txns && s.txns[t].request.Distribute?
    && s.txns[t].pc.HaveRows? && s'.txns[t].pc.ReadyPayouts?
    && s.txns[t].pc.rows != [] && 0 < Revenue(s.tables.orders, s.txns[t].request.pid)
    && rows == PayoutsFor(s.txns[t].pc.rows, Revenue(s.tables.orders, s.txns[t].request.pid))
  }

  ghost predicate Creating(s: State, t: TxnId, rows: seq<PayoutRow>) {
    && t in s.txns && var pc := s.txns[t].pc;
       pc == Finished(Distributed(rows)) || (pc.ReadyPayouts? && pc.rows != [] && rows == PayoutsFor(pc.rows, pc.revenue))
  }

  lemma OwnStepCreates(s: State, t: TxnId, rows: seq<PayoutRow>)
    requires t in s.txns && Advance(s, t).Went? && Fits(s.tables, s.txns[t].request, s.txns[t].pc)
    requires Creating(Advance(s, t).next, t, rows)
    ensures Creating(s, t, rows) || ReadsRevenue(s, Advance(s, t).next, t, rows)
  {
    hide OrderWritten, ContributionWritten, ClosingWritten, ExpiryWritten, PaymentWritten, Ordered, PayoutsFor, Revenue, EndFits;
  }

  lemma StepCreates(s: State, s': State, t: TxnId, rows: seq<PayoutRow>)
    requires Inv(s) && Next(s, s') && Creating(s', t, rows)
    ensures Creating(s, t, rows) || ReadsRevenue(s, s', t, rows)
  {
    assert t in s.txns ==> Fits(s.tables, s.txns[t].request, s.txns[t].pc);
    hide Inv, Advance, Fits, ReadsRevenue, PayoutsFor;
    if u :| u in s.txns && Advance(s, u) == Went(s') {
      AdvanceMoves(s, u);
      if u == t {
        OwnStepCreates(s, t, rows);
      }
    }
  }

  lemma {:induction false} RevenueWasRead(trace: seq<State>, n: nat, t: TxnId, rows: seq<PayoutRow>) returns (i: nat)
    requires Run(trace) && n < |trace| && Creating(trace[n], t, rows)
    ensures i < n && ReadsRevenue(trace[i], trace[i + 1], t, rows)
  {
    hide Inv, Next, Creating, ReadsRevenue;
    if n == 0 {
      assert false by { NothingInitially(t, rows); }
    } else {
      RunsKeep(trace, n - 1);
      StepCreates(trace[n - 1], trace[n], t, rows);
      if Creating(trace[n - 1], t, rows) {
        i := RevenueWasRead(trace, n - 1, t, rows);
      } else {
        i := n - 1;
      }
    }
  }

  lemma NothingInitially(t: TxnId, rows: seq<PayoutRow>)
    ensures !Creating(INITIAL, t, rows)
  {
  }

  lemma PaidInFull(rows: seq<Share>, revenue: nat)
    requires rows != []
    ensures Paid(PayoutsFor(rows, revenue)) == revenue
  {
    PayoutRowsMeaning(rows, Amounts(rows, revenue));
    SplitMeaning(rows, revenue);
  }

  /** A share-out that reports rows has committed exactly these, once and for all; they sum to what
      the pool had earned at the moment the revenue was read, and never exceed what it has earned
      since, whatever payments come in. They are all the pool has earned exactly as long as no order
      of it became PAID after the revenue was read: later payments are never shared out. */
  lemma PayoutsAreTheRevenueRead(trace: seq<State>, n: nat, t: TxnId, rows: seq<PayoutRow>) returns (i: nat)
    requires Run(trace) && n < |trace| && t in trace[n].txns && trace[n].txns[t].pc == Finished(Distributed(rows))
    ensures trace[n].txns[t].request.Distribute? && rows != []
    ensures Of(trace[n].tables.payouts, trace[n].txns[t].request.pid) == rows
    ensures i < n && ReadsRevenue(trace[i], trace[i + 1], t, rows)
    ensures var pid := trace[n].txns[t].request.pid;
            Paid(rows) == Revenue(trace[i].tables.orders, pid) <= Revenue(trace[n].tables.orders, pid)
    ensures var pid := trace[n].txns[t].request.pid;
            Paid(rows) == Revenue(trace[n].tables.orders, pid)
            <==> forall oid :: !PaidSince(trace[i].tables.orders, trace[n].tables.orders, pid, oid)
  {
    RunsKeep(trace, n);
    assert Fits(trace[n].tables, trace[n].txns[t].request, trace[n].txns[t].pc);
    i := RevenueWasRead(trace, n, t, rows);
    SameRequest(trace, i, n, t);
    RunsGrow(trace, i, n);
    RevenueGrows(trace[i].tables.orders, trace[n].tables.orders, trace[n].txns[t].request.pid);
    RevenueSame(trace[i].tables.orders, trace[n].tables.orders, trace[n].txns[t].request.pid);
    PaidInFull(trace[i].txns[t].pc.rows, Revenue(trace[i].tables.orders, trace[n].txns[t].request.pid));
    hide Run, Inv, PayoutsFor, Revenue, PaidSince;
  }

  /** In every state: payouts exist only for closed pools, they share out a positive sum that the
      pool has earned, in proportion to the contributions as they stood when the pool was closed. */
  lemma PayoutsWithinRevenue(trace: seq<State>, m: nat, n: nat, pid: PoolId)
    requires Run(trace) && m <= n < |trace| && Of(trace[n].tables.payouts, pid) != []
    ensures var t := trace[n].tables; var rows := Of(t.payouts, pid);
            && pid in t.pools && !t.pools[pid].open && 0 < Paid(rows) <= Revenue(t.orders, pid)
            && FairSplit(Of(t.contributions, pid), Paid(rows), rows)
            && exists tie :: Ordered(Of(t.contributions, pid), tie) != [] && rows == PayoutsFor(Ordered(Of(t.contributions, pid), tie), Paid(rows))
    ensures pid in trace[m].tables.pools && !trace[m].tables.pools[pid].open ==>
              Of(trace[n].tables.contributions, pid) == Of(trace[m].tables.contributions, pid)
  {
    RunsStaySound(trace, n);
    RunsGrow(trace, m, n);
    var t := trace[n].tables;
    assert PayoutsEarned(t);
    hide Run, Sound, Swept, OrdersKeep, Revenue, PayoutsFor, Ordered;
    var tie, revenue :| SplitOf(t, pid, tie, revenue);
    SplitIsFair(Of(t.contributions, pid), tie, revenue);
    hide FairSplit;
    assert Paid(Of(t.payouts, pid)) == revenue by {
      PaidInFull(Ordered(Of(t.contributions, pid), tie), revenue);
    }
  }

  /** Guard #2 is unreachable: a share-out that has computed its rows commits them. */
  lemma GuardNeverTaken(trace: seq<State>, n: nat, t: TxnId)
    requires Run(trace) && n < |trace| && t in trace[n].txns && trace[n].txns[t].pc.ReadyPayouts?
    ensures Advance(trace[n], t).Went? && Advance(trace[n], t).next.txns[t].pc.outcome.Distributed?
  {
    RunsKeep(trace, n);
    ReadyPayoutsKeeps(trace[n], t);
    hide Run, Inv, AdvanceShareOut;
  }

  // ---------------------------------------------------------------------------------------------
  // Payments
  // ---------------------------------------------------------------------------------------------

  /** In every state an order is PAID exactly when it has a payment, and then it has just one, for
      good. */
  lemma PaidOnceAndForGood(trace: seq<State>, m: nat, n: nat, oid: OrderId)
    requires Run(trace) && m <= n < |trace| && oid in trace[m].tables.orders
    ensures CountPayments(trace[m].tables.payments, oid) == if trace[m].tables.orders[oid].status == Settled then 1 else 0
    ensures oid in trace[n].tables.orders
    ensures trace[m].tables.orders[oid].status == Settled ==>
              trace[n].tables.orders[oid].status == Settled && CountPayments(trace[n].tables.payments, oid) == 1
  {
    RunsStaySound(trace, m);
    RunsStaySound(trace, n);
    RunsGrow(trace, m, n);
    hide Run, Swept, StockExact, StatusesSound, IndexSound, AllocationsMatch, PayoutsEarned, PricesExact, PoolsKeep, FrozenKeep;
  }

  // ---------------------------------------------------------------------------------------------
  // Sweep passes
  // ---------------------------------------------------------------------------------------------

  /** A pass: one expiry, not cut short, for each order that was overdue when the candidates were
      read in state `m`; finished by state `n`. */
  ghost predicate Pass(trace: seq<State>, m: nat, n: nat, cutoff: int, pass: map<OrderId, TxnId>)
    requires m <= n < |trace|
  {
    var was := trace[m].tables.orders;
    && (forall oid :: oid in was && was[oid].status == Pending && was[oid].createdAt < cutoff ==> oid in pass)
    && forall oid :: oid in pass ==>
         && pass[oid] in trace[n].txns && trace[n].txns[pass[oid]].request == ExpireOrder(oid, cutoff)
         && trace[n].txns[pass[oid]].pc.Finished? && trace[n].txns[pass[oid]].pc.outcome != Aborted
  }

  ghost predicate Moved(s: State, pass: map<OrderId, TxnId>, oid: OrderId) {
    oid in pass && pass[oid] in s.txns && s.txns[pass[oid]].pc == Finished(Released)
  }

  /** After a pass no candidate is PENDING, whatever other passes and payments ran meanwhile. */
  lemma PassLeavesNothingPending(trace: seq<State>, m: nat, n: nat, cutoff: int, pass: map<OrderId, TxnId>, oid: OrderId)
    requires Run(trace) && m <= n < |trace| && Pass(trace, m, n, cutoff, pass)
    requires oid in trace[m].tables.orders && trace[m].tables.orders[oid].status == Pending && trace[m].tables.orders[oid].createdAt < cutoff
    ensures oid in trace[n].tables.orders && trace[n].tables.orders[oid].status != Pending
  {
    var s := trace[n];
    RunsKeep(trace, n);
    RunsGrow(trace, m, n);
    assert Fits(s.tables, s.txns[pass[oid]].request, s.txns[pass[oid]].pc);
    hide Run, Inv, PoolsKeep, FrozenKeep;
  }

  /** The step by which expiry `t` moves its order from PENDING to EXPIRED and gives back its stock. */
  ghost predicate Releases(s: State, s': State, t: TxnId) {
    && t in s.txns && t in s'.txns && s.txns[t].request.ExpireOrder? && s'.txns[t].pc == Finished(Released)
    && var oid := s.txns[t].request.oid;
       && oid in s.tables.orders && oid in s'.tables.orders
       && s.tables.orders[oid].status == Pending
       && s'.tables.orders == s.tables.orders[oid := s.tables.orders[oid].(status := Expired)]
       && var pid := s.tables.orders[oid].pool;
          && pid in s.tables.pools
          && s'.tables.pools == s.tables.pools[pid := s.tables.pools[pid].(available := s.tables.pools[pid].available + s.tables.orders[oid].qty)]
  }

  lemma OnlyReadyExpireReleases(s: State, t: TxnId)
    requires t in s.txns && Advance(s, t).Went? && t in Advance(s, t).next.txns
    requires Advance(s, t).next.txns[t].pc == Finished(Released)
    ensures s.txns[t].pc.ReadyExpire?
  {
    hide Ordered, PayoutsFor, Revenue, OrderWritten, ContributionWritten, PaymentWritten, ExpiryWritten, ClosingWritten;
  }

  lemma OwnStepReleases(s: State, t: TxnId)
    requires t in s.txns && Fits(s.tables, s.txns[t].request, s.txns[t].pc) && s.txns[t].pc.ReadyExpire?
    requires Advance(s, t).Went?
    ensures Releases(s, Advance(s, t).next, t)
  {
  }

  lemma StepReleases(s: State, s': State, t: TxnId)
    requires Inv(s) && Next(s, s') && t in s'.txns && s'.txns[t].pc == Finished(Released)
    ensures (t in s.txns && s.txns[t].pc == Finished(Released)) || Releases(s, s', t)
  {
    assert t in s.txns ==> Fits(s.tables, s.txns[t].request, s.txns[t].pc);
    hide Inv, Advance, Fits, Releases;
    if u :| u in s.txns && Advance(s, u) == Went(s') {
      AdvanceMoves(s, u);
      if u == t {
        OnlyReadyExpireReleases(s, t);
        OwnStepReleases(s, t);
      }
    }
  }

  /** Every order that an expiry reports as released was moved by it from PENDING to EXPIRED. */
  lemma {:induction false} ReleasedByThatStep(trace: seq<State>, n: nat, t: TxnId) returns (i: nat)
    requires Run(trace) && n < |trace| && t in trace[n].txns && trace[n].txns[t].pc == Finished(Released)
    ensures i < n && Releases(trace[i], trace[i + 1], t)
  {
    hide Inv, Next, Releases;
    if n > 0 {
      RunsKeep(trace, n - 1);
      StepReleases(trace[n - 1], trace[n], t);
      if t in trace[n - 1].txns && trace[n - 1].txns[t].pc == Finished(Released) {
        i := ReleasedByThatStep(trace, n - 1, t);
      } else {
        i := n - 1;
      }
    }
  }

  /** What a pass returns: for how many candidates its expiry reported a release. The call for an
      order in `raising` raises after its commit, so its report is lost. */
  ghost function PassCount(s: State, pass: map<OrderId, TxnId>, raising: set<OrderId>): nat {
    |set oid | oid in pass && Moved(s, pass, oid) && oid !in raising|
  }

  /** The orders that some step of the pass took from PENDING to EXPIRED. */
  ghost function TakenByPass(trace: seq<State>, n: nat, pass: map<OrderId, TxnId>): set<OrderId>
    requires n < |trace|
  {
    set oid | oid in pass && exists i :: 0 <= i < n && Releases(trace[i], trace[i + 1], pass[oid]) && trace[i].txns[pass[oid]].request.oid == oid
  }

  /** Once a step of `t` has released an order, that is what `t` has reported. */
  lemma ReleaseIsReported(trace: seq<State>, i: nat, n: nat, t: TxnId)
    requires Run(trace) && i < n < |trace| && Releases(trace[i], trace[i + 1], t)
    ensures t in trace[n].txns && trace[n].txns[t].pc == Finished(Released)
  {
    SameRequest(trace, i + 1, n, t);
    hide Run;
  }

  lemma MovedIsTaken(trace: seq<State>, m: nat, n: nat, cutoff: int, pass: map<OrderId, TxnId>, oid: OrderId)
    requires Run(trace) && m <= n < |trace| && Pass(trace, m, n, cutoff, pass) && oid in pass
    ensures Moved(trace[n], pass, oid) <==> oid in TakenByPass(trace, n, pass)
  {
    var t := pass[oid];
    if Moved(trace[n], pass, oid) {
      var i := ReleasedByThatStep(trace, n, t);
      assert t in trace[i].txns;
      SameRequest(trace, i, n, t);
      hide Run, Releases;
    } else if oid in TakenByPass(trace, n, pass) {
      var i :| 0 <= i < n && Releases(trace[i], trace[i + 1], t);
      ReleaseIsReported(trace, i, n, t);
      assert false;
    }
  }

  /** A pass returns exactly the number of orders that its own steps took from PENDING to EXPIRED,
      giving their stock back, less those whose report is lost; no other expiry, of any pass, reports a release of one of them. */
  lemma PassCountsWhatItMoved(trace: seq<State>, m: nat, n: nat, cutoff: int, pass: map<OrderId, TxnId>, raising: set<OrderId>)
    requires Run(trace) && m <= n < |trace| && Pass(trace, m, n, cutoff, pass)
    ensures PassCount(trace[n], pass, raising) == |TakenByPass(trace, n, pass) - raising|
    ensures forall oid, u :: oid in TakenByPass(trace, n, pass) && u in trace[n].txns && u != pass[oid]
              ==> !(trace[n].txns[u].request.ExpireOrder? && trace[n].txns[u].request.oid == oid && trace[n].txns[u].pc == Finished(Released))
  {
    hide Run, Releases;
    forall oid | oid in pass
      ensures Moved(trace[n], pass, oid) <==> oid in TakenByPass(trace, n, pass)
    {
      MovedIsTaken(trace, m, n, cutoff, pass, oid);
    }
    assert (set oid | oid in pass && Moved(trace[n], pass, oid) && oid !in raising) == TakenByPass(trace, n, pass) - raising;
    forall oid, u | oid in TakenByPass(trace, n, pass) && u in trace[n].txns && u != pass[oid]
      ensures !(trace[n].txns[u].request.ExpireOrder? && trace[n].txns[u].request.oid == oid && trace[n].txns[u].pc == Finished(Released))
    {
      if trace[n].txns[u].request.ExpireOrder? && trace[n].txns[u].request.oid == oid && trace[n].txns[u].pc == Finished(Released) {
        EachDeedOnce(trace, n, u, pass[oid], Released, Released);
      }
    }
  }

  // ---------------------------------------------------------------------------------------------
  // Real time
  // ---------------------------------------------------------------------------------------------

  /** Histories only ever grow, apart from entries becoming done. */
  ghost predicate Prolongs(s: State, s': State) {
    && |s.history| <= |s'.history|
    && forall k :: 0 <= k < |s.history| ==> s'.history[k].txn == s.history[k].txn
  }

  /** How a step changes the serial order: not at all, at its end, or by confirming an early entry. */
  lemma AdvanceHistory(s: State, t: TxnId)
    requires t in s.txns && Advance(s, t).Went?
    ensures var s', at := Advance(s, t).next, Place(s.txns[t].pc);
            || s'.history == s.history
            || (|s.history| < |s'.history| && s'.history[..|s.history|] == s.history)
            || (at.Some? && at.value < |s.history| && s'.history == Flipped(s.history, at.value))
    ensures t in Advance(s, t).next.txns
    ensures Place(Advance(s, t).next.txns[t].pc).Some? ==> Place(Advance(s, t).next.txns[t].pc).value == |s.history|
  {
    var pc := s.txns[t].pc;
    if pc.Start? || pc.WantPool? || pc.HavePool? || pc.WantKey? || pc.Ready? || pc.Reread? {
      PoolStepHistory(s, t);
      hide Advance;
    } else if pc.CheckPaid? || pc.ReadRows? || pc.HaveRows? || pc.ReadyPayouts? {
      ShareOutHistory(s, t);
      hide Advance;
    } else {
      hide ExpiryWritten, PaymentWritten;
    }
  }

  lemma ShareOutHistory(s: State, t: TxnId)
    requires t in s.txns && AdvanceShareOut(s, t).Went?
    ensures var s', at := AdvanceShareOut(s, t).next, Place(s.txns[t].pc);
            && t in s'.txns && (Place(s'.txns[t].pc).Some? ==> Place(s'.txns[t].pc).value == |s.history|)
            && (|| s'.history == s.history
                || (|s.history| < |s'.history| && s'.history[..|s.history|] == s.history)
                || (at.Some? && at.value < |s.history| && s'.history == Flipped(s.history, at.value)))
  {
    hide Ordered, PayoutsFor, Revenue;
  }

  lemma PoolStepHistory(s: State, t: TxnId)
    requires t in s.txns && Advance(s, t).Went?
    requires var pc := s.txns[t].pc; pc.Start? || pc.WantPool? || pc.HavePool? || pc.WantKey? || pc.Ready? || pc.Reread?
    ensures var s' := Advance(s, t).next;
            && (s'.history == s.history || (|s.history| < |s'.history| && s'.history[..|s.history|] == s.history))
            && t in s'.txns && Place(s'.txns[t].pc) == None
  {
    hide OrderWritten, ContributionWritten, ClosingWritten;
  }

  lemma StepProlongs(s: State, s': State)
    requires Next(s, s')
    ensures Prolongs(s, s')
  {
    hide Advance;
    if t :| t in s.txns && Advance(s, t) == Went(s') {
      AdvanceHistory(s, t);
      assert |s.history| < |s'.history| ==> forall k :: 0 <= k < |s.history| ==> s'.history[k] == s'.history[..|s.history|][k];
    }
  }

  lemma {:induction false} RunProlongs(trace: seq<State>, m: nat, n: nat)
    requires Run(trace) && m <= n < |trace|
    ensures Prolongs(trace[m], trace[n])
  {
    hide Next;
    if m < n {
      RunProlongs(trace, m, n - 1);
      StepProlongs(trace[n - 1], trace[n]);
    }
  }

  lemma OrderInHistory(h: seq<Entry>, a: nat, b: nat) returns (i: nat, j: nat)
    requires a < b < |Committed(h)|
    ensures i < j < |h| && h[i].done && h[j].done && h[i] == Committed(h)[a] && h[j] == Committed(h)[b]
  {
    j := CommittedAt(h, b);
    assert Committed(h)[..b][a] == Committed(h)[a];
    i := CommittedAt(h[..j], a);
  }

  lemma KnownEntry(s: State, j: nat)
    requires HistoryMatches(s) && j < |s.history|
    ensures s.history[j].txn in s.txns
  {
    assert EntryFits(s, j);
  }

  /** The serial order respects real time: a transaction that had committed before another arrived
      comes before it. */
  lemma SerialOrderIsRealTime(trace: seq<State>, m: nat, n: nat, a: nat, b: nat)
    requires Run(trace) && m <= n < |trace|
    requires a < |Committed(trace[n].history)| && b < |Committed(trace[n].history)|
    requires var es := Committed(trace[n].history);
             && (exists o :: CommittedWriter(trace[m], es[a].txn, o)) && es[b].txn !in trace[m].txns
    ensures a < b
  {
    var h, es := trace[n].history, Committed(trace[n].history);
    var o :| CommittedWriter(trace[m], es[a].txn, o);
    RunsKeep(trace, m);
    RunsKeep(trace, n);
    RunProlongs(trace, m, n);
    assert HistoryMatches(trace[m]) && HistoryMatches(trace[n]);
    hide Run, Inv, Committed;
    if b < a {
      var j, i := OrderInHistory(h, b, a);
      var k: nat :| EnteredAt(trace[m], es[a].txn, k);
      assert k == i;
      KnownEntry(trace[m], j);
    }
  }
}
