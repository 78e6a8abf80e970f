/** The converse of serializability: every serial run arises. Stepped from start to end while nobody
    holds a lock, a request does exactly what module Ledger says; hence the concrete runs that show
    which tempting properties do not hold. */
module SerialRuns {
  import opened Common
  import opened PayoutSplit
  import opened Ledger
  import opened Transactions
  import opened SerialOrder
  import opened Serializability
  import opened Progress

  /** The state after the next step of `t`, if it can step. */
  ghost function Step(s: State, t: TxnId): State {
    if t in s.txns && Advance(s, t).Went? then Advance(s, t).next else s
  }

  ghost function Steps(s: State, t: TxnId, n: nat): State
    decreases n
  {
    if n == 0 then s else Steps(Step(s, t), t, n - 1)
  }

  /** `t` stands at `pc` with request `r`, and holds `locks`, the only locks there are. */
  ghost predicate At(s: State, t: TxnId, r: Request, pc: Pc, locks: map<Resource, TxnId>) {
    t in s.txns && s.txns[t] == Txn(r, pc) && s.locks == locks
  }

  /** Nothing but the program counter of `t` has changed since. */
  ghost predicate Moved(s: State, t: TxnId, e: State) {
    t in s.txns && e.tables == s.tables && e.txns.Keys == s.txns.Keys && forall u :: u in s.txns && u != t ==> e.txns[u] == s.txns[u]
  }

  /** `e` is `s` after `r` has been served by `t`. */
  ghost predicate ServedAlone(s: State, t: TxnId, r: Request, e: State) {
    && e.tables == Serve(s.tables, r).tables
    && At(e, t, r, Finished(Serve(s.tables, r).outcome), map[])
    && e.txns.Keys == s.txns.Keys && forall u :: u in s.txns && u != t ==> e.txns[u] == s.txns[u]
  }

  lemma {:induction false} StepsStay(s: State, t: TxnId, r: Request, o: Outcome, n: nat)
    requires At(s, t, r, Finished(o), map[])
    ensures Steps(s, t, n) == s
    decreases n
  {
    if n > 0 {
      StepsStay(s, t, r, o, n - 1);
    }
  }

  /** The rest of a run of `t` alone, after its next step. */
  lemma After(s: State, t: TxnId, r: Request, n: nat)
    requires Moved(s, t, Step(s, t)) && n > 0 && ServedAlone(Step(s, t), t, r, Steps(Step(s, t), t, n - 1))
    ensures ServedAlone(s, t, r, Steps(s, t, n))
  {
    hide Step, Serve;
  }

  /** The step that ends the run. */
  lemma Last(s: State, t: TxnId, r: Request, n: nat)
    requires n > 0 && ServedAlone(s, t, r, Step(s, t))
    ensures ServedAlone(s, t, r, Steps(s, t, n))
  {
    hide Step, Serve;
    StepsStay(Step(s, t), t, r, Serve(s.tables, r).outcome, n - 1);
  }

  lemma CreateAlone(s: State, t: TxnId, r: Request, n: nat)
    requires At(s, t, r, Start, map[]) && r.CreatePool? && r.pid !in s.tables.pools && n > 0
    ensures ServedAlone(s, t, r, Steps(s, t, n))
  {
    assert ServedAlone(s, t, r, Step(s, t));
    Last(s, t, r, n);
  }

  predicate ForPool(r: Request) {
    r.PlaceOrder? || r.Contribute? || r.ClosePool? || r.Distribute?
  }

  predicate Refused(r: Request, row: Pool) {
    if r.PlaceOrder? then !row.open || row.available < r.qty
    else if r.Distribute? then row.open
    else !row.open
  }

  function PoolLocks(r: Request, t: TxnId): map<Resource, TxnId> {
    map[PoolLock(PidOf(r)) := t]
  }

  lemma WantPoolAlone(s: State, t: TxnId, r: Request, n: nat)
    requires At(s, t, r, WantPool, map[]) && ForPool(r) && n > 6
    requires r.PlaceOrder? ==> !KeyTaken(s.tables, r) && r.oid !in s.tables.orders
    ensures ServedAlone(s, t, r, Steps(s, t, n))
  {
    if PidOf(r) !in s.tables.pools {
      assert ServedAlone(s, t, r, Step(s, t));
      Last(s, t, r, n);
    } else {
      assert Moved(s, t, Step(s, t)) && At(Step(s, t), t, r, HavePool(s.tables.pools[PidOf(r)]), PoolLocks(r, t));
      HavePoolAlone(Step(s, t), t, r, s.tables.pools[PidOf(r)], n - 1);
      After(s, t, r, n);
    }
  }

  lemma HavePoolAlone(s: State, t: TxnId, r: Request, row: Pool, n: nat)
    requires At(s, t, r, HavePool(row), PoolLocks(r, t)) && RowIs(s.tables, PidOf(r), row) && ForPool(r) && n > 5
    requires r.PlaceOrder? ==> !KeyTaken(s.tables, r) && r.oid !in s.tables.orders
    ensures ServedAlone(s, t, r, Steps(s, t, n))
  {
    if Refused(r, row) {
      RefusedAlone(s, t, r, row);
      Last(s, t, r, n);
    } else if r.Distribute? {
      ShareOutAlone(s, t, r, row, n);
    } else {
      GoesOnAlone(s, t, r, row, n);
    }
  }

  lemma RefusedAlone(s: State, t: TxnId, r: Request, row: Pool)
    requires At(s, t, r, HavePool(row), PoolLocks(r, t)) && RowIs(s.tables, PidOf(r), row) && ForPool(r) && Refused(r, row)
    requires r.PlaceOrder? ==> !KeyTaken(s.tables, r)
    ensures ServedAlone(s, t, r, Step(s, t))
  {
    hide Ordered, PayoutsFor, Revenue;
  }

  lemma GoesOnAlone(s: State, t: TxnId, r: Request, row: Pool, n: nat)
    requires At(s, t, r, HavePool(row), PoolLocks(r, t)) && RowIs(s.tables, PidOf(r), row) && n > 3
    requires (r.PlaceOrder? || r.Contribute? || r.ClosePool?) && !Refused(r, row)
    requires r.PlaceOrder? ==> !KeyTaken(s.tables, r) && r.oid !in s.tables.orders
    ensures ServedAlone(s, t, r, Steps(s, t, n))
  {
    var s1 := Step(s, t);
    if r.PlaceOrder? {
      assert Moved(s, t, s1) && At(s1, t, r, WantKey(row), PoolLocks(r, t));
      WantKeyAlone(s1, t, r, row, n - 1);
    } else {
      assert Moved(s, t, s1) && At(s1, t, r, Ready(row), PoolLocks(r, t));
      ReadyAlone(s1, t, r, row, n - 1);
    }
    hide Step, Serve;
    After(s, t, r, n);
  }

  lemma WantKeyAlone(s: State, t: TxnId, r: Request, row: Pool, n: nat)
    requires At(s, t, r, WantKey(row), PoolLocks(r, t)) && RowIs(s.tables, PidOf(r), row) && n > 2
    requires r.PlaceOrder? && !Refused(r, row) && !KeyTaken(s.tables, r) && r.oid !in s.tables.orders
    ensures ServedAlone(s, t, r, Steps(s, t, n))
  {
    var s1 := Step(s, t);
    assert Moved(s, t, s1) && At(s1, t, r, Ready(row), s1.locks) && forall l :: l in s1.locks ==> s1.locks[l] == t;
    ReadyAlone(s1, t, r, row, n - 1);
    hide Step, Serve;
    After(s, t, r, n);
  }

  lemma ReadyAlone(s: State, t: TxnId, r: Request, row: Pool, n: nat)
    requires At(s, t, r, Ready(row), s.locks) && RowIs(s.tables, PidOf(r), row) && n > 0
    requires forall l :: l in s.locks ==> s.locks[l] == t
    requires (r.PlaceOrder? || r.Contribute? || r.ClosePool?) && !Refused(r, row)
    requires r.PlaceOrder? ==> !KeyTaken(s.tables, r) && r.oid !in s.tables.orders
    ensures ServedAlone(s, t, r, Steps(s, t, n))
  {
    if r.PlaceOrder? {
      OrderIsServed(s.tables, r, row);
    } else if r.Contribute? {
      ContributionIsServed(s.tables, r, row);
    } else {
      ClosingIsServed(s.tables, r, row);
    }
    hide Serve, OrderWritten, ContributionWritten, ClosingWritten;
    assert Freed(s.locks, t) == map[];
    assert ServedAlone(s, t, r, Step(s, t));
    hide Step;
    Last(s, t, r, n);
  }

  lemma ShareOutAlone(s: State, t: TxnId, r: Request, row: Pool, n: nat)
    requires At(s, t, r, HavePool(row), PoolLocks(r, t)) && RowIs(s.tables, PidOf(r), row) && n > 5
    requires r.Distribute? && !row.open
    ensures ServedAlone(s, t, r, Steps(s, t, n))
  {
    hide Ordered, PayoutsFor, Revenue, SharesFarmer, RepeatsFarmer;
    var s1 := Step(s, t);
    assert Moved(s, t, s1) && At(s1, t, r, CheckPaid, PoolLocks(r, t));
    CheckPaidAlone(s1, t, r, n - 1);
    hide Step, Serve;
    After(s, t, r, n);
  }

  lemma CheckPaidAlone(s: State, t: TxnId, r: Request, n: nat)
    requires At(s, t, r, CheckPaid, PoolLocks(r, t)) && n > 4
    requires r.Distribute? && r.pid in s.tables.pools && !s.tables.pools[r.pid].open
    ensures ServedAlone(s, t, r, Steps(s, t, n))
  {
    hide Ordered, PayoutsFor, Revenue, SharesFarmer, RepeatsFarmer;
    var s1 := Step(s, t);
    if Of(s.tables.payouts, r.pid) != [] {
      assert ServedAlone(s, t, r, s1);
      Last(s, t, r, n);
    } else {
      assert Moved(s, t, s1) && At(s1, t, r, ReadRows, PoolLocks(r, t));
      ReadRowsAlone(s1, t, r, n - 1);
      hide Step, Serve;
      After(s, t, r, n);
    }
  }

  lemma ReadRowsAlone(s: State, t: TxnId, r: Request, n: nat)
    requires At(s, t, r, ReadRows, PoolLocks(r, t)) && n > 3 && ClosedUnpaid(s.tables, r)
    ensures ServedAlone(s, t, r, Steps(s, t, n))
  {
    hide Ordered, PayoutsFor, Revenue, SharesFarmer, RepeatsFarmer;
    var s1, rows := Step(s, t), Ordered(Of(s.tables.contributions, r.pid), r.tie);
    if rows == [] {
      assert ServedAlone(s, t, r, s1);
      Last(s, t, r, n);
    } else {
      assert Moved(s, t, s1) && At(s1, t, r, HaveRows(rows), PoolLocks(r, t));
      HaveRowsAlone(s1, t, r, rows, n - 1);
      hide Step, Serve;
      After(s, t, r, n);
    }
  }

  lemma HaveRowsAlone(s: State, t: TxnId, r: Request, rows: seq<Share>, n: nat)
    requires At(s, t, r, HaveRows(rows), PoolLocks(r, t)) && n > 2 && Fits(s.tables, r, HaveRows(rows))
    ensures ServedAlone(s, t, r, Steps(s, t, n))
  {
    hide Ordered, PayoutsFor, Revenue, SharesFarmer, RepeatsFarmer;
    var s1, revenue := Step(s, t), Revenue(s.tables.orders, r.pid);
    if revenue <= 0 {
      assert ServedAlone(s, t, r, s1);
      Last(s, t, r, n);
    } else {
      assert Moved(s, t, s1) && At(s1, t, r, ReadyPayouts(rows, revenue, |s.history|), PoolLocks(r, t));
      ReadyPayoutsAlone(s1, t, r, n - 1);
      hide Step, Serve;
      After(s, t, r, n);
    }
  }

  lemma ReadyPayoutsAlone(s: State, t: TxnId, r: Request, n: nat)
    requires t in s.txns && s.txns[t].pc.ReadyPayouts? && At(s, t, r, s.txns[t].pc, PoolLocks(r, t)) && n > 1
    requires var pc := s.txns[t].pc; Fits(s.tables, r, HaveRows(pc.rows)) && 0 < pc.revenue == Revenue(s.tables.orders, r.pid)
    ensures ServedAlone(s, t, r, Steps(s, t, n))
  {
    var pc := s.txns[t].pc;
    NoConflict(Of(s.tables.contributions, r.pid), r.tie, pc.revenue);
    ShareOutIsServed(s.tables, r, pc.rows);
    PaysAtOnce(s, t, r);
    hide Ordered, PayoutsFor, Revenue, RepeatsFarmer, Serve, Step;
    Last(s, t, r, n);
  }

  lemma PaysAtOnce(s: State, t: TxnId, r: Request)
    requires t in s.txns && s.txns[t].pc.ReadyPayouts? && At(s, t, r, s.txns[t].pc, PoolLocks(r, t)) && r.Distribute?
    requires var pc := s.txns[t].pc;
             && pc.rows != [] && Of(s.tables.payouts, r.pid) == [] && !RepeatsFarmer(PayoutsFor(pc.rows, pc.revenue))
             && Serve(s.tables, r) == Served(AddPayouts(s.tables, r.pid, PayoutsFor(pc.rows, pc.revenue)), Distributed(PayoutsFor(pc.rows, pc.revenue)))
    ensures ServedAlone(s, t, r, Step(s, t))
  {
    hide Ordered, PayoutsFor, Revenue, RepeatsFarmer, Serve;
    assert Freed(s.locks, t) == map[];
  }

  lemma OrderAlone(s: State, t: TxnId, r: Request, n: nat)
    requires At(s, t, r, Start, map[]) && ForPool(r) && n > 7
    requires r.PlaceOrder? ==> r.oid !in s.tables.orders
    ensures ServedAlone(s, t, r, Steps(s, t, n))
  {
    hide Ordered, PayoutsFor, Revenue;
    var s1 := Step(s, t);
    if r.PlaceOrder? && KeyTaken(s.tables, r) {
      assert ServedAlone(s, t, r, s1);
      Last(s, t, r, n);
    } else {
      assert Moved(s, t, s1) && At(s1, t, r, WantPool, map[]);
      WantPoolAlone(s1, t, r, n - 1);
      hide Step, Serve;
      After(s, t, r, n);
    }
  }

  lemma ExpireAlone(s: State, t: TxnId, r: Request, n: nat)
    requires At(s, t, r, Start, map[]) && r.ExpireOrder? && r.oid in s.tables.orders && n > 3
    ensures ServedAlone(s, t, r, Steps(s, t, n))
  {
    var s1, order := Step(s, t), s.tables.orders[r.oid];
    assert Moved(s, t, s1) && At(s1, t, r, HaveOrder(order), map[OrderLock(r.oid) := t]);
    HaveOrderAlone(s1, t, r, order, n - 1);
    hide Step, Serve;
    After(s, t, r, n);
  }

  lemma HaveOrderAlone(s: State, t: TxnId, r: Request, order: Order, n: nat)
    requires r.ExpireOrder? && At(s, t, r, HaveOrder(order), map[OrderLock(r.oid) := t]) && n > 2
    requires OrderIs(s.tables, r.oid, order)
    ensures ServedAlone(s, t, r, Steps(s, t, n))
  {
    var s1 := Step(s, t);
    if order.status != Pending || order.createdAt >= r.cutoff {
      assert ServedAlone(s, t, r, s1);
      Last(s, t, r, n);
    } else {
      assert Moved(s, t, s1) && At(s1, t, r, WantOrderPool(order), map[OrderLock(r.oid) := t]);
      WantOrderPoolAlone(s1, t, r, order, n - 1);
      hide Step, Serve;
      After(s, t, r, n);
    }
  }

  function FoundPool(t: Tables, order: Order): Option<Pool> {
    if order.pool in t.pools then Some(t.pools[order.pool]) else None
  }

  lemma OrderPoolLocked(s: State, t: TxnId, r: Request, order: Order)
    requires r.ExpireOrder? && At(s, t, r, WantOrderPool(order), map[OrderLock(r.oid) := t])
    ensures var s1 := Step(s, t);
            && Moved(s, t, s1) && At(s1, t, r, ReadyExpire(order, FoundPool(s.tables, order)), s1.locks)
            && forall l :: l in s1.locks ==> s1.locks[l] == t
  {
  }

  lemma WantOrderPoolAlone(s: State, t: TxnId, r: Request, order: Order, n: nat)
    requires r.ExpireOrder? && At(s, t, r, WantOrderPool(order), map[OrderLock(r.oid) := t]) && n > 1
    requires OrderIs(s.tables, r.oid, order) && Overdue(s.tables, r.oid, r.cutoff)
    ensures ServedAlone(s, t, r, Steps(s, t, n))
  {
    OrderPoolLocked(s, t, r, order);
    hide Step, Serve;
    ReadyExpireAlone(Step(s, t), t, r, order, FoundPool(s.tables, order), n - 1);
    After(s, t, r, n);
  }

  lemma ReadyExpireAlone(s: State, t: TxnId, r: Request, order: Order, found: Option<Pool>, n: nat)
    requires r.ExpireOrder? && At(s, t, r, ReadyExpire(order, found), s.locks) && n > 0
    requires forall l :: l in s.locks ==> s.locks[l] == t
    requires OrderIs(s.tables, r.oid, order) && Overdue(s.tables, r.oid, r.cutoff)
    requires found == FoundPool(s.tables, order)
    ensures ServedAlone(s, t, r, Steps(s, t, n))
  {
    assert Freed(s.locks, t) == map[];
    assert ServedAlone(s, t, r, Step(s, t));
    hide Step, Serve;
    Last(s, t, r, n);
  }

  lemma WebhookAlone(s: State, t: TxnId, r: Request, n: nat)
    requires At(s, t, r, Start, map[]) && r.Webhook? && n > 3
    ensures ServedAlone(s, t, r, Steps(s, t, n))
  {
    var s1 := Step(s, t);
    if r.event in s.tables.events {
      assert ServedAlone(s, t, r, s1);
      Last(s, t, r, n);
    } else {
      assert Moved(s, t, s1) && At(s1, t, r, HaveEvent, map[EventEntry(r.event) := t]);
      HaveEventAlone(s1, t, r, n - 1);
      hide Step, Serve;
      After(s, t, r, n);
    }
  }

  lemma HaveEventAlone(s: State, t: TxnId, r: Request, n: nat)
    requires At(s, t, r, HaveEvent, s.locks) && Unrecorded(s.tables, r) && s.locks == map[EventEntry(r.event) := t] && n > 2
    ensures ServedAlone(s, t, r, Steps(s, t, n))
  {
    var s1 := Step(s, t);
    var held := forall l :: l in s1.locks ==> s1.locks[l] == t;
    if !Names(r) {
      assert Moved(s, t, s1) && At(s1, t, r, EventOnly(false), s1.locks) && held;
      WebhookEndsAlone(s1, t, r, n - 1);
    } else if r.order.value !in s.tables.orders {
      assert Moved(s, t, s1) && At(s1, t, r, Orphan(|s.history|), s1.locks) && held;
      WebhookEndsAlone(s1, t, r, n - 1);
    } else {
      assert Moved(s, t, s1) && At(s1, t, r, HaveOrder(s.tables.orders[r.order.value]), s1.locks) && held;
      PaymentAlone(s1, t, r, n - 1);
    }
    hide Step, Serve;
    After(s, t, r, n);
  }

  lemma PaymentAlone(s: State, t: TxnId, r: Request, n: nat)
    requires Names(r) && Unrecorded(s.tables, r) && OidOf(r) in s.tables.orders && n > 1
    requires At(s, t, r, HaveOrder(s.tables.orders[OidOf(r)]), s.locks) && forall l :: l in s.locks ==> s.locks[l] == t
    ensures ServedAlone(s, t, r, Steps(s, t, n))
  {
    var s1, settled := Step(s, t), s.tables.orders[OidOf(r)].status == Settled;
    assert Moved(s, t, s1) && At(s1, t, r, if settled then EventOnly(true) else ReadyPay, s.locks);
    WebhookEndsAlone(s1, t, r, n - 1);
    hide Step, Serve;
    After(s, t, r, n);
  }

  lemma WebhookEndsAlone(s: State, t: TxnId, r: Request, n: nat)
    requires Unrecorded(s.tables, r) && t in s.txns && At(s, t, r, s.txns[t].pc, s.locks) && n > 0
    requires forall l :: l in s.locks ==> s.locks[l] == t
    requires match s.txns[t].pc
             case EventOnly(locked) => !Pays(s.tables, r)
             case Orphan(_) => !Pays(s.tables, r)
             case ReadyPay => Pays(s.tables, r)
             case _ => false
    ensures ServedAlone(s, t, r, Steps(s, t, n))
  {
    assert Freed(s.locks, t) == map[];
    assert ServedAlone(s, t, r, Step(s, t));
    hide Step, Serve;
    Last(s, t, r, n);
  }

  // ---------------------------------------------------------------------------------------------
  // Runs
  // ---------------------------------------------------------------------------------------------

  function End(trace: seq<State>): State
    requires trace != []
  {
    trace[|trace| - 1]
  }

  lemma Longer(trace: seq<State>, s: State) returns (longer: seq<State>)
    requires Run(trace) && (Next(End(trace), s) || s == End(trace))
    ensures Run(longer) && End(longer) == s && |trace| <= |longer| <= |trace| + 1 && longer[..|trace|] == trace
  {
    hide Next;
    longer := if s == End(trace) then trace else trace + [s];
  }

  lemma StepLonger(trace: seq<State>, t: TxnId) returns (longer: seq<State>)
    requires Run(trace)
    ensures Run(longer) && End(longer) == Step(End(trace), t)
    ensures |trace| <= |longer| <= |trace| + 1 && longer[..|trace|] == trace
  {
    hide Advance;
    longer := Longer(trace, Step(End(trace), t));
  }

  lemma {:induction false} StepsLonger(trace: seq<State>, t: TxnId, n: nat) returns (longer: seq<State>)
    requires Run(trace)
    ensures Run(longer) && End(longer) == Steps(End(trace), t, n) && |trace| <= |longer| && longer[..|trace|] == trace
    decreases n
  {
    if n == 0 {
      longer := trace;
    } else {
      hide Step, Run;
      var next := StepLonger(trace, t);
      longer := StepsLonger(next, t, n - 1);
      assert longer[..|trace|] == longer[..|next|][..|trace|];
    }
  }

  /** An order that starts on tables `t0` leaves them alone until it commits, if it does. */
  ghost predicate OnTables(s: State, t: TxnId, t0: Tables, r: Request) {
    && t in s.txns && s.txns[t].request == r && r.PlaceOrder?
    && (s.tables == t0 || (s.txns[t].pc.Finished? && s.tables == Serve(t0, r).tables))
  }

  lemma StepOnTables(s: State, t: TxnId, t0: Tables, r: Request)
    requires Inv(s) && OnTables(s, t, t0, r)
    ensures OnTables(Step(s, t), t, t0, r)
  {
    FitsNow(s, t);
    if Advance(s, t).Went? {
      CommitsAreServed(s, t);
      AdvanceMoves(s, t);
      assert Place(s.txns[t].pc) == None;
      assert !s.txns[t].pc.Finished?;
    }
    hide Inv, Serve, Fits, Advance;
  }

  lemma {:induction false} StepsOnTables(trace: seq<State>, t: TxnId, n: nat, t0: Tables, r: Request) returns (longer: seq<State>)
    requires Run(trace) && OnTables(End(trace), t, t0, r)
    ensures Run(longer) && End(longer) == Steps(End(trace), t, n) && |trace| <= |longer| && longer[..|trace|] == trace
    ensures forall i :: |trace| <= i < |longer| ==> longer[i].tables == t0 || longer[i].tables == Serve(t0, r).tables
    decreases n
  {
    if n == 0 {
      longer := trace;
    } else {
      RunsKeep(trace, |trace| - 1);
      StepOnTables(End(trace), t, t0, r);
      hide Step, Run, Inv, Serve;
      var next := StepLonger(trace, t);
      longer := StepsOnTables(next, t, n - 1, t0, r);
      assert longer[..|trace|] == longer[..|next|][..|trace|];
      assert |trace| < |next| ==> longer[|trace|] == longer[..|next|][|trace|] == End(next);
    }
  }

  /** `r` can arrive as `t` and be stepped to its end at once. */
  lemma ServeAlone(trace: seq<State>, t: TxnId, r: Request) returns (longer: seq<State>)
    requires Run(trace) && End(trace).locks == map[] && CanBegin(End(trace), t, r)
    ensures Run(longer) && ServedAlone(Begun(End(trace), t, r), t, r, End(longer))
    ensures |trace| <= |longer| && longer[..|trace|] == trace
  {
    var s := Begun(End(trace), t, r);
    var next := Longer(trace, s);
    longer := StepsLonger(next, t, 8);
    FromTheStart(s, t, r);
    assert longer[..|trace|] == longer[..|next|][..|trace|];
  }

  lemma FromTheStart(s: State, t: TxnId, r: Request)
    requires At(s, t, r, Start, map[])
    requires r.PlaceOrder? ==> r.oid !in s.tables.orders
    requires r.CreatePool? ==> r.pid !in s.tables.pools
    requires r.ExpireOrder? ==> r.oid in s.tables.orders
    ensures ServedAlone(s, t, r, Steps(s, t, 8))
  {
    hide Steps, ServedAlone;
    match r
    case CreatePool(_, _) => CreateAlone(s, t, r, 8);
    case ExpireOrder(_, _) => ExpireAlone(s, t, r, 8);
    case Webhook(_, _, _, _, _) => WebhookAlone(s, t, r, 8);
    case _ => OrderAlone(s, t, r, 8);
  }

  /** New ids are new, and orders put up for expiry exist. */
  ghost predicate Admissible(requests: seq<Request>) {
    && (forall i, j :: 0 <= i < j < |requests| ==> !SameId(requests[i], requests[j]))
    && forall i :: 0 <= i < |requests| && requests[i].ExpireOrder? ==> requests[i].oid in ServeAll(EMPTY_TABLES, requests[..i]).orders
  }

  lemma {:induction false} RowsComeFromRequests(requests: seq<Request>)
    ensures PoolsExist(ServeAll(EMPTY_TABLES, requests))
    ensures forall oid :: oid in ServeAll(EMPTY_TABLES, requests).orders ==> exists i :: 0 <= i < |requests| && requests[i].PlaceOrder? && requests[i].oid == oid
    ensures forall pid :: pid in ServeAll(EMPTY_TABLES, requests).pools ==> exists i :: 0 <= i < |requests| && requests[i].CreatePool? && requests[i].pid == pid
  {
    if requests != [] {
      var front, last := requests[..|requests| - 1], requests[|requests| - 1];
      RowsComeFromRequests(front);
      ServeNewRows(ServeAll(EMPTY_TABLES, front), last);
      hide Serve, PoolsExist;
      assert requests[|front|] == last && forall i :: 0 <= i < |front| ==> requests[i] == front[i];
    }
  }

  /** The outcome that the i-th request has in the serial run. */
  ghost function OutcomeAt(requests: seq<Request>, i: nat): Outcome
    requires i < |requests|
  {
    Serve(ServeAll(EMPTY_TABLES, requests[..i]), requests[i]).outcome
  }

  /** The transactions after a serial run: the i-th request was transaction i. */
  ghost function Ended(requests: seq<Request>): map<TxnId, Txn> {
    if requests == [] then map[] else
      var n := |requests| - 1;
      Ended(requests[..n])[n := Txn(requests[n], Finished(OutcomeAt(requests, n)))]
  }

  lemma {:induction false} EndedMeaning(requests: seq<Request>, t: TxnId)
    ensures t in Ended(requests) <==> t < |requests|
    ensures t < |requests| ==> Ended(requests)[t] == Txn(requests[t], Finished(OutcomeAt(requests, t)))
  {
    if requests != [] {
      var front := requests[..|requests| - 1];
      EndedMeaning(front, t);
      assert t < |front| ==> front[..t] == requests[..t];
    }
  }

  /** The requests have been served in turn: same tables, same answers, nothing left open. */
  ghost predicate ServedInTurn(s: State, requests: seq<Request>) {
    s.locks == map[] && s.tables == ServeAll(EMPTY_TABLES, requests) && s.txns == Ended(requests)
  }

  lemma NothingServed()
    ensures Run([INITIAL]) && ServedInTurn(End([INITIAL]), [])
  {
  }

  lemma ServedTxns(s: State, requests: seq<Request>)
    requires ServedInTurn(s, requests)
    ensures forall t :: t in s.txns ==> t < |requests| && s.txns[t].request == requests[t]
  {
    forall t: TxnId
      ensures t in s.txns ==> t < |requests| && s.txns[t].request == requests[t]
    {
      EndedMeaning(requests, t);
    }
    hide Serve, ServeAll, OutcomeAt, Ended;
  }

  lemma NextCanBegin(s: State, requests: seq<Request>)
    requires requests != [] && Admissible(requests) && ServedInTurn(s, requests[..|requests| - 1])
    ensures CanBegin(s, |requests| - 1, requests[|requests| - 1])
  {
    var front, last := requests[..|requests| - 1], requests[|requests| - 1];
    RowsComeFromRequests(front);
    ServedTxns(s, front);
    hide Serve, ServeAll, PoolsExist, Ended;
    assert forall t: nat :: t < |front| ==> !SameId(requests[t], last) && front[t] == requests[t];
  }

  lemma AdmissibleFront(requests: seq<Request>)
    requires requests != [] && Admissible(requests)
    ensures Admissible(requests[..|requests| - 1])
  {
    var front := requests[..|requests| - 1];
    assert forall i :: 0 <= i < |front| ==> front[..i] == requests[..i];
    hide ServeAll;
  }

  lemma ServedNext(requests: seq<Request>, s: State, e: State)
    requires requests != [] && ServedInTurn(s, requests[..|requests| - 1])
    requires ServedAlone(Begun(s, |requests| - 1, requests[|requests| - 1]), |requests| - 1, requests[|requests| - 1], e)
    ensures ServedInTurn(e, requests)
  {
    hide Serve;
    assert e.txns == Ended(requests);
  }

  /** Every serial run is a run of the interleaved system. */
  lemma {:induction false} EverySerialRunArises(requests: seq<Request>) returns (trace: seq<State>)
    requires Admissible(requests)
    ensures Run(trace) && ServedInTurn(End(trace), requests)
  {
    if requests == [] {
      trace := [INITIAL];
      NothingServed();
    } else {
      AdmissibleFront(requests);
      var before := EverySerialRunArises(requests[..|requests| - 1]);
      NextCanBegin(End(before), requests);
      assert End(before).locks == map[];
      hide *;
      trace := ServeAlone(before, |requests| - 1, requests[|requests| - 1]);
      ServedNext(requests, End(before), End(trace));
    }
  }
}
