/** What each transaction holds and relies on, and how effects entered early in the serial order
    commute with what is served after them. */
module SerialOrder {
  import opened Common
  import opened PayoutSplit
  import opened Ledger
  import opened LedgerLaws
  import opened Transactions

  // ---------------------------------------------------------------------------------------------
  // What a transaction holds, and what it may rely on
  // ---------------------------------------------------------------------------------------------

  function KeyEntries(r: Request): set<Resource> {
    if r.PlaceOrder? && r.key.Some? then {KeyEntry(r.buyer, r.key.value)} else {}
  }

  function EventEntries(r: Request): set<Resource> {
    if r.Webhook? then {EventEntry(r.event)} else {}
  }

  /** The locks and uncommitted index entries that go with a program counter. */
  function Holds(r: Request, pc: Pc): set<Resource> {
    match pc
    case Start => {}
    case WantPool => {}
    case HavePool(_) => {PoolLock(PidOf(r))}
    case WantKey(_) => {PoolLock(PidOf(r))}
    case Ready(_) => {PoolLock(PidOf(r))} + KeyEntries(r)
    case Reread => {}
    case HaveOrder(_) => {OrderLock(OidOf(r))} + EventEntries(r)
    case WantOrderPool(_) => {OrderLock(OidOf(r))}
    case ReadyExpire(order, found) => {OrderLock(OidOf(r))} + if found.Some? then {PoolLock(order.pool)} else {}
    case HaveEvent => EventEntries(r)
    case EventOnly(locked) => EventEntries(r) + if locked then {OrderLock(OidOf(r))} else {}
    case Orphan(_) => EventEntries(r)
    case ReadyPay => {OrderLock(OidOf(r))} + EventEntries(r)
    case CheckPaid => {PoolLock(PidOf(r))}
    case ReadRows => {PoolLock(PidOf(r))}
    case HaveRows(_) => {PoolLock(PidOf(r))}
    case ReadyPayouts(_, _, _) => {PoolLock(PidOf(r))}
    case Finished(_) => {}
  }

  ghost predicate RowIs(t: Tables, pid: PoolId, row: Pool) {
    pid in t.pools && t.pools[pid] == row
  }

  ghost predicate OrderIs(t: Tables, oid: OrderId, order: Order) {
    oid in t.orders && t.orders[oid] == order
  }

  ghost predicate Unrecorded(t: Tables, r: Request) {
    r.Webhook? && r.event !in t.events
  }

  ghost predicate Names(r: Request) {
    r.Webhook? && r.success && r.order.Some?
  }

  ghost predicate ClosedUnpaid(t: Tables, r: Request) {
    r.Distribute? && r.pid in t.pools && !t.pools[r.pid].open && Of(t.payouts, r.pid) == []
  }

  /** What the end of a request tells. */
  ghost predicate EndFits(t: Tables, r: Request, o: Outcome) {
    && o != IntegrityError
    && (o.Placed? ==> r.PlaceOrder? && o.oid == r.oid && r.oid in t.orders && (r.key.Some? ==> KeyTaken(t, r) && Existing(t, r) == r.oid))
    && (o.Returned? ==> r.PlaceOrder? && KeyTaken(t, r) && Existing(t, r) == o.oid)
    && (r.ExpireOrder? && o != Aborted ==> r.oid in t.orders && !Overdue(t, r.oid, r.cutoff) && (o == Released || o == Skipped))
    && (o == Released ==> r.ExpireOrder?)
    && (o.Distributed? ==> r.Distribute? && o.rows != [] && Of(t.payouts, r.pid) == o.rows)
  }

  /** The committed tables are still what the transaction has read of them, and its checks still hold. */
  ghost predicate Fits(t: Tables, r: Request, pc: Pc) {
    match pc
    case Start => r.ExpireOrder? ==> r.oid in t.orders
    case WantPool => r.PlaceOrder? || r.Contribute? || r.ClosePool? || r.Distribute?
    case HavePool(row) => (r.PlaceOrder? || r.Contribute? || r.ClosePool? || r.Distribute?) && RowIs(t, PidOf(r), row)
    case WantKey(row) => r.PlaceOrder? && RowIs(t, r.pid, row) && row.open && r.qty <= row.available
    case Ready(row) =>
      && (r.PlaceOrder? || r.Contribute? || r.ClosePool?) && RowIs(t, PidOf(r), row) && row.open
      && (r.PlaceOrder? ==> r.qty <= row.available && !KeyTaken(t, r))
    case Reread => r.PlaceOrder? && KeyTaken(t, r)
    case HaveOrder(order) => (r.ExpireOrder? || (Unrecorded(t, r) && Names(r))) && OrderIs(t, OidOf(r), order)
    case WantOrderPool(order) => r.ExpireOrder? && Overdue(t, r.oid, r.cutoff) && OrderIs(t, r.oid, order)
    case ReadyExpire(order, found) =>
      r.ExpireOrder? && Overdue(t, r.oid, r.cutoff) && OrderIs(t, r.oid, order) && found.Some? && RowIs(t, order.pool, found.value)
    case HaveEvent => Unrecorded(t, r)
    case EventOnly(locked) =>
      Unrecorded(t, r) && if locked then Names(r) && OidOf(r) in t.orders && t.orders[OidOf(r)].status == Settled else !Names(r)
    case Orphan(_) => Unrecorded(t, r) && Names(r)
    case ReadyPay => Unrecorded(t, r) && Names(r) && OidOf(r) in t.orders && t.orders[OidOf(r)].status != Settled
    case CheckPaid => r.Distribute? && r.pid in t.pools && !t.pools[r.pid].open
    case ReadRows => ClosedUnpaid(t, r)
    case HaveRows(rows) => ClosedUnpaid(t, r) && rows == Ordered(Of(t.contributions, r.pid), r.tie) && rows != []
    case ReadyPayouts(rows, revenue, _) =>
      ClosedUnpaid(t, r) && rows == Ordered(Of(t.contributions, r.pid), r.tie) && rows != [] && 0 < revenue <= Revenue(t.orders, r.pid)
    case Finished(o) => EndFits(t, r, o)
  }

  /** `u` differs from `t` in nothing that a holder of `held` relies on. */
  ghost predicate Agree(t: Tables, u: Tables, held: set<Resource>) {
    && Grows(t, u)
    && (forall pid :: PoolLock(pid) in held && pid in t.pools ==>
          && u.pools[pid] == t.pools[pid]
          && Of(u.contributions, pid) == Of(t.contributions, pid) && Of(u.payouts, pid) == Of(t.payouts, pid))
    && (forall oid :: OrderLock(oid) in held && oid in t.orders ==> u.orders[oid] == t.orders[oid])
    && (forall b: BuyerId, k: string :: KeyEntry(b, k) in held && (b, k) !in t.keyIndex ==> (b, k) !in u.keyIndex)
    && (forall e :: EventEntry(e) in held && e !in t.events ==> e !in u.events)
  }

  /** Nothing another transaction may do takes away what a transaction relies on. */
  lemma FitsStable(t: Tables, u: Tables, r: Request, pc: Pc)
    requires Fits(t, r, pc) && Agree(t, u, Holds(r, pc))
    ensures Fits(u, r, pc)
  {
    match pc
    case Start =>
    case WantPool =>
    case HavePool(_) => PoolFitsStable(t, u, r, pc);
    case WantKey(_) => PoolFitsStable(t, u, r, pc);
    case Ready(_) => PoolFitsStable(t, u, r, pc);
    case Reread => PoolFitsStable(t, u, r, pc);
    case HaveOrder(_) => OrderFitsStable(t, u, r, pc);
    case WantOrderPool(_) => OrderFitsStable(t, u, r, pc);
    case ReadyExpire(_, _) => ExpiryFitsStable(t, u, r, pc);
    case HaveEvent => EventFitsStable(t, u, r, pc);
    case EventOnly(_) => EventFitsStable(t, u, r, pc);
    case Orphan(_) => EventFitsStable(t, u, r, pc);
    case ReadyPay => EventFitsStable(t, u, r, pc);
    case CheckPaid => ShareOutFitsStable(t, u, r, pc);
    case ReadRows => ShareOutFitsStable(t, u, r, pc);
    case HaveRows(_) => ShareOutFitsStable(t, u, r, pc);
    case ReadyPayouts(_, _, _) => ShareOutFitsStable(t, u, r, pc);
    case Finished(_) => EndFitsStable(t, u, r, pc);
  }

  lemma PoolFitsStable(t: Tables, u: Tables, r: Request, pc: Pc)
    requires Fits(t, r, pc) && Agree(t, u, Holds(r, pc))
    requires pc.HavePool? || pc.WantKey? || pc.Ready? || pc.Reread?
    ensures Fits(u, r, pc)
  {
  }

  lemma OrderFitsStable(t: Tables, u: Tables, r: Request, pc: Pc)
    requires Fits(t, r, pc) && Agree(t, u, Holds(r, pc))
    requires pc.HaveOrder? || pc.WantOrderPool?
    ensures Fits(u, r, pc)
  {
  }

  lemma ExpiryFitsStable(t: Tables, u: Tables, r: Request, pc: Pc)
    requires Fits(t, r, pc) && Agree(t, u, Holds(r, pc))
    requires pc.ReadyExpire?
    ensures Fits(u, r, pc)
  {
  }

  lemma EventFitsStable(t: Tables, u: Tables, r: Request, pc: Pc)
    requires Fits(t, r, pc) && Agree(t, u, Holds(r, pc))
    requires pc.HaveEvent? || pc.EventOnly? || pc.Orphan? || pc.ReadyPay?
    ensures Fits(u, r, pc)
  {
  }

  lemma ShareOutFitsStable(t: Tables, u: Tables, r: Request, pc: Pc)
    requires Fits(t, r, pc) && Agree(t, u, Holds(r, pc))
    requires pc.CheckPaid? || pc.ReadRows? || pc.HaveRows? || pc.ReadyPayouts?
    ensures Fits(u, r, pc)
  {
    RevenueGrows(t.orders, u.orders, r.pid);
    hide Revenue, Ordered;
  }

  lemma EndFitsStable(t: Tables, u: Tables, r: Request, pc: Pc)
    requires Fits(t, r, pc) && Agree(t, u, Holds(r, pc))
    requires pc.Finished?
    ensures Fits(u, r, pc)
  {
  }

  /** What serving a request can change. */
  function Touched(t: Tables, r: Request): set<Resource> {
    match r
    case CreatePool(_, _) => {}
    case Contribute(pid, _, _) => {PoolLock(pid)}
    case ClosePool(pid) => {PoolLock(pid)}
    case PlaceOrder(_, _, pid, _, _, _) => {PoolLock(pid)} + KeyEntries(r)
    case ExpireOrder(oid, _) => {OrderLock(oid)} + if oid in t.orders then {PoolLock(t.orders[oid].pool)} else {}
    case Webhook(event, _, _, _, _) => {EventEntry(event)} + if Pays(t, r) then {OrderLock(r.order.value)} else {}
    case Distribute(pid, _) => {PoolLock(pid)}
  }

  lemma ServeAgrees(t: Tables, r: Request, held: set<Resource>)
    requires Touched(t, r) !! held
    ensures Agree(t, Serve(t, r).tables, held)
  {
    ServeGrows(t, r);
    hide Grows;
    match r
    case CreatePool(_, _) => ServeAgreesSmall(t, r, held);
    case Contribute(_, _, _) => ServeAgreesSmall(t, r, held);
    case ClosePool(_) => ServeAgreesSmall(t, r, held);
    case PlaceOrder(_, _, _, _, _, _) => ServeAgreesOrder(t, r, held);
    case ExpireOrder(_, _) => ServeAgreesExpiry(t, r, held);
    case Webhook(_, _, _, _, _) => ServeAgreesWebhook(t, r, held);
    case Distribute(_, _) => ServeAgreesDistribute(t, r, held);
  }

  lemma ServeAgreesSmall(t: Tables, r: Request, held: set<Resource>)
    requires Touched(t, r) !! held && (r.CreatePool? || r.Contribute? || r.ClosePool?) && Grows(t, Serve(t, r).tables)
    ensures Agree(t, Serve(t, r).tables, held)
  {
    hide Grows;
  }

  lemma ServeAgreesOrder(t: Tables, r: Request, held: set<Resource>)
    requires Touched(t, r) !! held && r.PlaceOrder? && Grows(t, ServeOrder(t, r).tables)
    ensures Agree(t, ServeOrder(t, r).tables, held)
  {
    hide Grows;
    if ServeOrder(t, r).outcome.Placed? {
      assert PoolLock(r.pid) !in held && (r.key.Some? ==> KeyEntry(r.buyer, r.key.value) !in held);
      OrderAgrees(t, r, held);
      hide Agree;
    }
  }

  lemma OrderAgrees(t: Tables, r: Request, held: set<Resource>)
    requires r.PlaceOrder? && r.pid in t.pools && r.oid !in t.orders && Grows(t, AddOrder(t, r))
    requires PoolLock(r.pid) !in held && (r.key.Some? ==> KeyEntry(r.buyer, r.key.value) !in held)
    ensures Agree(t, AddOrder(t, r), held)
  {
    hide Grows;
  }

  lemma ServeAgreesExpiry(t: Tables, r: Request, held: set<Resource>)
    requires Touched(t, r) !! held && r.ExpireOrder? && Grows(t, Serve(t, r).tables)
    ensures Agree(t, ServeExpiry(t, r).tables, held)
  {
    hide Grows;
  }

  lemma ServeAgreesWebhook(t: Tables, r: Request, held: set<Resource>)
    requires Touched(t, r) !! held && r.Webhook? && Grows(t, Serve(t, r).tables)
    ensures Agree(t, ServeWebhook(t, r).tables, held)
  {
    hide Grows;
  }

  lemma ServeAgreesDistribute(t: Tables, r: Request, held: set<Resource>)
    requires Touched(t, r) !! held && r.Distribute? && Grows(t, Serve(t, r).tables)
    ensures Agree(t, ServeDistribute(t, r).tables, held)
  {
    hide Grows, PayoutsFor, Ordered, Revenue;
  }

  // ---------------------------------------------------------------------------------------------
  // Early entries: effects that commute with everything served after them
  // ---------------------------------------------------------------------------------------------

  datatype Patch = EventPatch(event: EventId, reference: string) | PayoutPatch(pid: PoolId, rows: seq<PayoutRow>)

  function Patched(t: Tables, p: Patch): Tables {
    match p
    case EventPatch(event, reference) => AddEvent(t, event, reference)
    case PayoutPatch(pid, rows) => AddPayouts(t, pid, rows)
  }

  predicate Interferes(r: Request, p: Patch) {
    match p
    case EventPatch(event, _) => r.Webhook? && r.event == event
    case PayoutPatch(pid, _) => r.Distribute? && r.pid == pid
  }

  /** A request that neither records the same event nor pays out the same pool does not notice the
      patch: it gives the same answer and its effect comes on top. */
  lemma Commute(t: Tables, p: Patch, r: Request)
    requires !Interferes(r, p)
    ensures Serve(Patched(t, p), r) == Served(Patched(Serve(t, r).tables, p), Serve(t, r).outcome)
  {
    match r
    case CreatePool(_, _) => CommuteSmall(t, p, r);
    case Contribute(_, _, _) => CommuteSmall(t, p, r);
    case ClosePool(_) => CommuteSmall(t, p, r);
    case PlaceOrder(_, _, _, _, _, _) => CommuteOrder(t, p, r);
    case ExpireOrder(_, _) => CommuteExpiry(t, p, r);
    case Webhook(_, _, _, _, _) => CommuteWebhook(t, p, r);
    case Distribute(_, _) => CommuteDistribute(t, p, r);
  }

  lemma CommuteSmall(t: Tables, p: Patch, r: Request)
    requires r.CreatePool? || r.Contribute? || r.ClosePool?
    ensures Serve(Patched(t, p), r) == Served(Patched(Serve(t, r).tables, p), Serve(t, r).outcome)
  {
  }

  lemma CommuteOrder(t: Tables, p: Patch, r: Request)
    requires r.PlaceOrder?
    ensures ServeOrder(Patched(t, p), r) == Served(Patched(ServeOrder(t, r).tables, p), ServeOrder(t, r).outcome)
  {
  }

  lemma CommuteExpiry(t: Tables, p: Patch, r: Request)
    requires r.ExpireOrder?
    ensures ServeExpiry(Patched(t, p), r) == Served(Patched(ServeExpiry(t, r).tables, p), ServeExpiry(t, r).outcome)
  {
  }

  lemma CommuteWebhook(t: Tables, p: Patch, r: Request)
    requires r.Webhook? && !Interferes(r, p)
    ensures ServeWebhook(Patched(t, p), r) == Served(Patched(ServeWebhook(t, r).tables, p), ServeWebhook(t, r).outcome)
  {
    if p.EventPatch? {
      assert t.events[p.event := p.reference][r.event := r.reference] == t.events[r.event := r.reference][p.event := p.reference];
    }
  }

  lemma CommuteDistribute(t: Tables, p: Patch, r: Request)
    requires r.Distribute? && !Interferes(r, p)
    ensures ServeDistribute(Patched(t, p), r) == Served(Patched(ServeDistribute(t, r).tables, p), ServeDistribute(t, r).outcome)
  {
    hide PayoutsFor, Ordered, Revenue;
    if p.PayoutPatch? && ServeDistribute(t, r).outcome.Distributed? {
      PatchesCommute(t, p, PayoutPatch(r.pid, ServeDistribute(t, r).outcome.rows));
    }
  }

  predicate SameTarget(p: Patch, q: Patch) {
    (p.EventPatch? && q.EventPatch? && p.event == q.event) || (p.PayoutPatch? && q.PayoutPatch? && p.pid == q.pid)
  }

  lemma PatchesCommute(t: Tables, p: Patch, q: Patch)
    requires !SameTarget(p, q)
    ensures Patched(Patched(t, p), q) == Patched(Patched(t, q), p)
  {
    if p.PayoutPatch? && q.PayoutPatch? {
      var x, y := Of(t.payouts, p.pid) + p.rows, Of(t.payouts, q.pid) + q.rows;
      assert t.payouts[p.pid := x][q.pid := y] == t.payouts[q.pid := y][p.pid := x];
    } else if p.EventPatch? && q.EventPatch? {
      assert t.events[p.event := p.reference][q.event := q.reference] == t.events[q.event := q.reference][p.event := p.reference];
    }
  }

  // ---------------------------------------------------------------------------------------------
  // Replaying the serial order
  // ---------------------------------------------------------------------------------------------

  /** The tables after serving the done entries in order. */
  ghost function Replay(h: seq<Entry>): Tables {
    if h == [] then EMPTY_TABLES else
      var before, last := Replay(h[..|h| - 1]), h[|h| - 1];
      if last.done then Serve(before, last.request).tables else before
  }

  /** Every done entry had in the serial order the outcome it had in fact. */
  ghost predicate OutcomesExplained(h: seq<Entry>) {
    forall i :: 0 <= i < |h| && h[i].done ==> Serve(Replay(h[..i]), h[i].request).outcome == h[i].outcome
  }

  /** An entry that is not done yet: served at its place it would have effect `p`, and nothing
      entered after it interferes. */
  ghost predicate Tentative(h: seq<Entry>, k: nat, p: Patch) {
    && k < |h| && !h[k].done
    && Serve(Replay(h[..k]), h[k].request) == Served(Patched(Replay(h[..k]), p), h[k].outcome)
    && forall j :: k < j < |h| ==> !Interferes(h[j].request, p)
  }

  function Flipped(h: seq<Entry>, k: nat): seq<Entry>
    requires k < |h|
  {
    h[k := h[k].(done := true)]
  }

  lemma ReplayAppend(h: seq<Entry>, e: Entry)
    ensures Replay(h + [e]) == if e.done then Serve(Replay(h), e.request).tables else Replay(h)
  {
    assert (h + [e])[..|h|] == h;
  }

  /** Committing an early entry puts its effect on top of everything entered since. */
  lemma {:induction false} FlipReplay(h: seq<Entry>, k: nat, p: Patch)
    requires Tentative(h, k, p)
    ensures Replay(Flipped(h, k)) == Patched(Replay(h), p)
  {
    hide Serve, Patched, Interferes;
    var front := h[..|h| - 1];
    if k == |h| - 1 {
      assert Flipped(h, k)[..k] == front;
    } else {
      assert front[..k] == h[..k];
      FlipReplay(front, k, p);
      assert Flipped(h, k)[..|h| - 1] == Flipped(front, k);
      Commute(Replay(front), p, h[|h| - 1].request);
    }
  }

  lemma FlipPrefix(h: seq<Entry>, k: nat, p: Patch, m: nat)
    requires Tentative(h, k, p) && m <= |h|
    ensures Replay(Flipped(h, k)[..m]) == if m <= k then Replay(h[..m]) else Patched(Replay(h[..m]), p)
  {
    if m <= k {
      assert Flipped(h, k)[..m] == h[..m];
    } else {
      assert h[..m][..k] == h[..k];
      assert Flipped(h, k)[..m] == Flipped(h[..m], k);
      FlipReplay(h[..m], k, p);
    }
  }

  lemma FlipOutcomes(h: seq<Entry>, k: nat, p: Patch)
    requires Tentative(h, k, p) && OutcomesExplained(h)
    ensures OutcomesExplained(Flipped(h, k))
  {
    var f := Flipped(h, k);
    forall i | 0 <= i < |f| && f[i].done
      ensures Serve(Replay(f[..i]), f[i].request).outcome == f[i].outcome
    {
      FlipPrefix(h, k, p, i);
      if k < i {
        Commute(Replay(h[..i]), p, h[i].request);
      }
    }
  }

  lemma FlipTentative(h: seq<Entry>, k: nat, p: Patch, m: nat, q: Patch)
    requires Tentative(h, k, p) && Tentative(h, m, q) && k != m && !SameTarget(p, q)
    ensures Tentative(Flipped(h, k), m, q)
  {
    FlipPrefix(h, k, p, m);
    if k < m {
      var before := Replay(h[..m]);
      Commute(before, p, h[m].request);
      PatchesCommute(before, q, p);
    }
  }

  lemma AppendTentative(h: seq<Entry>, e: Entry, k: nat, p: Patch)
    requires Tentative(h, k, p) && !Interferes(e.request, p)
    ensures Tentative(h + [e], k, p)
  {
    assert (h + [e])[..k] == h[..k];
  }

  lemma AppendOutcomes(h: seq<Entry>, e: Entry)
    requires OutcomesExplained(h) && (e.done ==> Serve(Replay(h), e.request).outcome == e.outcome)
    ensures OutcomesExplained(h + [e])
  {
    var f := h + [e];
    forall i | 0 <= i < |f| && f[i].done
      ensures Serve(Replay(f[..i]), f[i].request).outcome == f[i].outcome
    {
      assert f[..i] == h[..i];
      if i == |h| {
        assert h[..i] == h;
      }
    }
  }
}
