/** Every interleaving commits what some serial order of the committed transactions commits. */
module Serializability {
  import opened Common
  import opened PayoutSplit
  import opened Ledger
  import opened LedgerLaws
  import opened Transactions
  import opened SerialOrder

  // ---------------------------------------------------------------------------------------------
  // The invariant
  // ---------------------------------------------------------------------------------------------

  /** The outcomes of transactions that wrote. */
  predicate Writes(o: Outcome) {
    o.PoolCreated? || o.Contributed? || o.Closed? || o.Placed? || o.Released? || o.Recorded? || o.PaymentTaken? || o.Distributed?
  }

  function HoldsOf(x: Txn): set<Resource> {
    Holds(x.request, x.pc)
  }

  /** The place of a transaction entered early in the serial order. */
  function Place(pc: Pc): Option<nat> {
    match pc
    case Orphan(at) => Some(at)
    case ReadyPayouts(_, _, at) => Some(at)
    case _ => None
  }

  /** The effect it is going to have. */
  function PatchOf(x: Txn): Patch
    requires Place(x.pc).Some?
  {
    match x.pc
    case Orphan(_) => if x.request.Webhook? then EventPatch(x.request.event, x.request.reference) else EventPatch("", "")
    case ReadyPayouts(rows, revenue, _) => PayoutPatch(PidOf(x.request), if rows == [] then [] else PayoutsFor(rows, revenue))
  }

  function EarlyOutcome(x: Txn): Outcome
    requires Place(x.pc).Some?
  {
    match PatchOf(x)
    case EventPatch(_, _) => Recorded
    case PayoutPatch(_, rows) => Distributed(rows)
  }

  /** The lock table is exactly what the program counters say is held. */
  ghost predicate LocksMatch(s: State) {
    forall r: Resource, t: TxnId :: (r in s.locks && s.locks[r] == t) <==> (t in s.txns && r in HoldsOf(s.txns[t]))
  }

  ghost predicate AllFit(s: State) {
    forall t :: t in s.txns ==> Fits(s.tables, s.txns[t].request, s.txns[t].pc)
  }

  ghost predicate Unborn(s: State, t: TxnId)
    requires t in s.txns
  {
    !s.txns[t].pc.Finished? ==>
      var r := s.txns[t].request;
      (r.PlaceOrder? ==> r.oid !in s.tables.orders) && (r.CreatePool? ==> r.pid !in s.tables.pools)
  }

  ghost predicate SameId(r: Request, q: Request) {
    (r.PlaceOrder? && q.PlaceOrder? && r.oid == q.oid) || (r.CreatePool? && q.CreatePool? && r.pid == q.pid)
  }

  /** New ids are unused until their transaction commits, and no two transactions bring the same. */
  ghost predicate IdsFresh(s: State) {
    && (forall t :: t in s.txns ==> Unborn(s, t))
    && (forall t, u :: t in s.txns && u in s.txns && t != u ==> !SameId(s.txns[t].request, s.txns[u].request))
  }

  /** The foreign key from orders to pools. */
  ghost predicate PoolsExist(t: Tables) {
    forall oid :: oid in t.orders ==> t.orders[oid].pool in t.pools
  }

  /** The entry of a transaction that committed, of one that is still to commit, or of one that died. */
  ghost predicate EntryFits(s: State, i: nat)
    requires i < |s.history|
  {
    var e := s.history[i];
    && e.txn in s.txns && s.txns[e.txn].request == e.request
    && (e.done ==> s.txns[e.txn].pc == Finished(e.outcome) && Writes(e.outcome))
    && (!e.done ==> Place(s.txns[e.txn].pc) == Some(i) || (s.txns[e.txn].pc.Finished? && !Writes(s.txns[e.txn].pc.outcome)))
  }

  ghost predicate EnteredAt(s: State, t: TxnId, i: nat) {
    i < |s.history| && s.history[i].txn == t && s.history[i].done
  }

  /** The done entries are exactly the committed writers, once each. */
  ghost predicate HistoryMatches(s: State) {
    && (forall i :: 0 <= i < |s.history| ==> EntryFits(s, i))
    && (forall i, j :: 0 <= i < j < |s.history| ==> s.history[i].txn != s.history[j].txn)
    && (forall t :: t in s.txns && s.txns[t].pc.Finished? && Writes(s.txns[t].pc.outcome) ==> exists i :: EnteredAt(s, t, i))
  }

  ghost predicate EarlyEntry(s: State, t: TxnId)
    requires t in s.txns && Place(s.txns[t].pc).Some?
  {
    var at := Place(s.txns[t].pc).value;
    Tentative(s.history, at, PatchOf(s.txns[t])) && s.history[at].txn == t && s.history[at].outcome == EarlyOutcome(s.txns[t])
  }

  ghost predicate EarlyEntries(s: State) {
    forall t :: t in s.txns && Place(s.txns[t].pc).Some? ==> EarlyEntry(s, t)
  }

  ghost predicate Explained(s: State) {
    s.tables == Replay(s.history) && OutcomesExplained(s.history)
  }

  ghost predicate Inv(s: State) {
    && LocksMatch(s) && AllFit(s) && IdsFresh(s) && PoolsExist(s.tables)
    && HistoryMatches(s) && EarlyEntries(s) && Explained(s)
  }

  /** A step keeps the invariant and takes back nothing that was committed. */
  ghost predicate Keeps(s: State, s': State) {
    Inv(s') && Grows(s.tables, s'.tables)
  }

  lemma GrowsAtOnce(t: Tables)
    ensures Grows(t, t)
  {
  }

  lemma InitialInv()
    ensures Inv(INITIAL)
  {
  }

  // ---------------------------------------------------------------------------------------------
  // Locks
  // ---------------------------------------------------------------------------------------------

  lemma GotoLocks(s: State, t: TxnId, pc: Pc)
    requires LocksMatch(s) && t in s.txns && Holds(s.txns[t].request, pc) == HoldsOf(s.txns[t])
    ensures LocksMatch(Goto(s, t, pc))
  {
    hide Holds;
  }

  lemma LockLocks(s: State, t: TxnId, r: Resource, pc: Pc)
    requires LocksMatch(s) && t in s.txns && r !in s.locks && Holds(s.txns[t].request, pc) == HoldsOf(s.txns[t]) + {r}
    ensures LocksMatch(Lock(s, t, r, pc))
  {
    hide Holds;
  }

  lemma LetGoLocks(s: State, t: TxnId, pc: Pc)
    requires LocksMatch(s) && t in s.txns && Holds(s.txns[t].request, pc) == {}
    ensures LocksMatch(LetGo(s, t, pc))
  {
    hide Holds;
  }

  /** No two transactions hold the same resource. */
  lemma Exclusive(s: State, t: TxnId, u: TxnId)
    requires LocksMatch(s) && t in s.txns && u in s.txns && t != u
    ensures HoldsOf(s.txns[t]) !! HoldsOf(s.txns[u])
  {
    hide Holds;
    forall r | r in HoldsOf(s.txns[t])
      ensures r !in HoldsOf(s.txns[u])
    {
      assert r in s.locks && s.locks[r] == t;
    }
  }

  // ---------------------------------------------------------------------------------------------
  // Steps that leave the tables alone
  // ---------------------------------------------------------------------------------------------

  ghost predicate Steppable(s: State, t: TxnId, pc: Pc) {
    && Inv(s) && Active(s, t)
    && Fits(s.tables, s.txns[t].request, pc)
    && (pc.Finished? ==> !Writes(pc.outcome))
  }

  /** Everything but the locks and the early entries, when only one program counter moves. */
  lemma MoveKeeps(s: State, s': State, t: TxnId, pc: Pc)
    requires Steppable(s, t, pc) && Place(pc) == None
    requires Place(s.txns[t].pc) == None || pc.Finished?
    requires s'.tables == s.tables && s'.history == s.history && s'.txns == Goto(s, t, pc).txns
    ensures AllFit(s') && IdsFresh(s') && PoolsExist(s'.tables) && HistoryMatches(s') && EarlyEntries(s') && Explained(s')
  {
    MoveKeepsHistory(s, s', t, pc);
    hide LocksMatch, Fits, Tentative, OutcomesExplained, HistoryMatches;
  }

  lemma MoveKeepsHistory(s: State, s': State, t: TxnId, pc: Pc)
    requires HistoryMatches(s) && Active(s, t) && (pc.Finished? ==> !Writes(pc.outcome)) && Place(pc) == None
    requires Place(s.txns[t].pc) == None || pc.Finished?
    requires s'.history == s.history && s'.txns == Goto(s, t, pc).txns
    ensures HistoryMatches(s')
  {
    forall i | 0 <= i < |s'.history|
      ensures EntryFits(s', i)
    {
      assert EntryFits(s, i);
    }
    forall u | u in s'.txns && s'.txns[u].pc.Finished? && Writes(s'.txns[u].pc.outcome)
      ensures exists i :: EnteredAt(s', u, i)
    {
      var i :| EnteredAt(s, u, i);
      assert EnteredAt(s', u, i);
    }
  }

  lemma GotoKeeps(s: State, t: TxnId, pc: Pc)
    requires Steppable(s, t, pc) && Place(pc) == None && Place(s.txns[t].pc) == None
    requires Holds(s.txns[t].request, pc) == HoldsOf(s.txns[t])
    ensures Keeps(s, Goto(s, t, pc))
  {
    GrowsAtOnce(s.tables);
    GotoLocks(s, t, pc);
    MoveKeeps(s, Goto(s, t, pc), t, pc);
    hide LocksMatch, AllFit, IdsFresh, PoolsExist, HistoryMatches, EarlyEntries, Explained, Grows;
  }

  lemma LockKeeps(s: State, t: TxnId, r: Resource, pc: Pc)
    requires Steppable(s, t, pc) && Place(pc) == None && Place(s.txns[t].pc) == None
    requires r !in s.locks && Holds(s.txns[t].request, pc) == HoldsOf(s.txns[t]) + {r}
    ensures Keeps(s, Lock(s, t, r, pc))
  {
    GrowsAtOnce(s.tables);
    LockLocks(s, t, r, pc);
    MoveKeeps(s, Lock(s, t, r, pc), t, pc);
    hide LocksMatch, AllFit, IdsFresh, PoolsExist, HistoryMatches, EarlyEntries, Explained, Grows;
  }

  lemma LetGoKeeps(s: State, t: TxnId, pc: Pc)
    requires Steppable(s, t, pc) && Holds(s.txns[t].request, pc) == {} && Place(pc) == None
    requires Place(s.txns[t].pc) == None || pc.Finished?
    ensures Keeps(s, LetGo(s, t, pc))
  {
    GrowsAtOnce(s.tables);
    LetGoLocks(s, t, pc);
    MoveKeeps(s, LetGo(s, t, pc), t, pc);
    hide LocksMatch, AllFit, IdsFresh, PoolsExist, HistoryMatches, EarlyEntries, Explained, Grows;
  }

  // ---------------------------------------------------------------------------------------------
  // Steps that commit or enter the serial order
  // ---------------------------------------------------------------------------------------------

  function Target(p: Patch): Resource {
    match p
    case EventPatch(event, _) => EventEntry(event)
    case PayoutPatch(pid, _) => PoolLock(pid)
  }

  /** A transaction entered early holds what its effect is about. */
  lemma TargetHeld(t: Tables, x: Txn)
    requires Fits(t, x.request, x.pc) && Place(x.pc).Some?
    ensures Target(PatchOf(x)) in HoldsOf(x)
  {
  }

  lemma InterferesTouches(t: Tables, r: Request, p: Patch)
    requires Interferes(r, p)
    ensures Target(p) in Touched(t, r)
  {
  }

  /** Nothing that a transaction may serve under its locks interferes with another's early entry. */
  lemma NoInterference(s: State, t: TxnId, u: TxnId)
    requires LocksMatch(s) && AllFit(s) && t in s.txns && u in s.txns && t != u && Place(s.txns[u].pc).Some?
    requires Touched(s.tables, s.txns[t].request) <= HoldsOf(s.txns[t])
    ensures !Interferes(s.txns[t].request, PatchOf(s.txns[u]))
  {
    TargetHeld(s.tables, s.txns[u]);
    Exclusive(s, t, u);
    if Interferes(s.txns[t].request, PatchOf(s.txns[u])) {
      InterferesTouches(s.tables, s.txns[t].request, PatchOf(s.txns[u]));
      assert false;
    }
  }

  lemma ServeNewRows(t: Tables, r: Request)
    requires PoolsExist(t)
    ensures PoolsExist(Serve(t, r).tables)
    ensures Serve(t, r).tables.orders.Keys <= t.orders.Keys + if r.PlaceOrder? then {r.oid} else {}
    ensures Serve(t, r).tables.pools.Keys <= t.pools.Keys + if r.CreatePool? then {r.pid} else {}
  {
    hide Ordered, PayoutsFor, Revenue;
    match r
    case PlaceOrder(_, _, _, _, _, _) => OrderNewRows(t, r);
    case Webhook(_, _, _, _, _) => WebhookNewRows(t, r);
    case ExpireOrder(_, _) => ExpiryNewRows(t, r);
    case _ =>
  }

  lemma OrderNewRows(t: Tables, r: Request)
    requires PoolsExist(t) && r.PlaceOrder?
    ensures var u := ServeOrder(t, r).tables; PoolsExist(u) && u.orders.Keys <= t.orders.Keys + {r.oid} && u.pools.Keys <= t.pools.Keys
  {
  }

  lemma WebhookNewRows(t: Tables, r: Request)
    requires PoolsExist(t) && r.Webhook?
    ensures var u := ServeWebhook(t, r).tables; PoolsExist(u) && u.orders.Keys <= t.orders.Keys && u.pools.Keys <= t.pools.Keys
  {
  }

  lemma ExpiryNewRows(t: Tables, r: Request)
    requires PoolsExist(t) && r.ExpireOrder?
    ensures var u := ServeExpiry(t, r).tables; PoolsExist(u) && u.orders.Keys <= t.orders.Keys && u.pools.Keys <= t.pools.Keys
  {
  }

  lemma LocksMatchSame(s: State, s': State)
    requires LocksMatch(s) && s'.locks == s.locks && s'.txns == s.txns
    ensures LocksMatch(s')
  {
  }

  /** A pool about to be paid out has not been paid out yet. */
  ghost predicate Unpaid(t: Tables, p: Patch) {
    p.PayoutPatch? ==> Of(t.payouts, p.pid) == []
  }

  lemma PatchUnpaid(t: Tables, x: Txn)
    requires Fits(t, x.request, x.pc) && Place(x.pc).Some?
    ensures Unpaid(t, PatchOf(x))
  {
  }

  lemma PatchAgrees(t: Tables, p: Patch, held: set<Resource>)
    requires Target(p) !in held && Unpaid(t, p)
    ensures Agree(t, Patched(t, p), held)
  {
  }

  /** Other transactions still fit after `t` has changed the tables only in what it holds. */
  lemma OthersFit(s: State, t: TxnId, tables: Tables)
    requires AllFit(s) && t in s.txns
    requires forall u :: u in s.txns && u != t ==> Agree(s.tables, tables, HoldsOf(s.txns[u]))
    ensures forall u :: u in s.txns && u != t ==> Fits(tables, s.txns[u].request, s.txns[u].pc)
  {
    hide Fits, Agree;
    forall u | u in s.txns && u != t
      ensures Fits(tables, s.txns[u].request, s.txns[u].pc)
    {
      FitsStable(s.tables, tables, s.txns[u].request, s.txns[u].pc);
    }
  }

  lemma NoEntryYet(s: State, t: TxnId)
    requires HistoryMatches(s) && Active(s, t) && Place(s.txns[t].pc) == None
    ensures forall i :: 0 <= i < |s.history| ==> s.history[i].txn != t
  {
    forall i | 0 <= i < |s.history|
      ensures s.history[i].txn != t
    {
      assert EntryFits(s, i);
    }
  }

  lemma AppendMatches(s: State, s': State, t: TxnId, pc: Pc, e: Entry)
    requires HistoryMatches(s) && Active(s, t) && Place(s.txns[t].pc) == None
    requires e.txn == t && e.request == s.txns[t].request
    requires s'.txns == Goto(s, t, pc).txns && s'.history == s.history + [e]
    requires if e.done then pc == Finished(e.outcome) && Writes(e.outcome) else Place(pc) == Some(|s.history|)
    ensures HistoryMatches(s')
  {
    NoEntryYet(s, t);
    forall i | 0 <= i < |s'.history|
      ensures EntryFits(s', i)
    {
      if i < |s.history| {
        assert EntryFits(s, i);
      }
    }
    forall u | u in s'.txns && s'.txns[u].pc.Finished? && Writes(s'.txns[u].pc.outcome)
      ensures exists i :: EnteredAt(s', u, i)
    {
      if u == t {
        assert EnteredAt(s', t, |s.history|);
      } else {
        var i :| EnteredAt(s, u, i);
        assert EnteredAt(s', u, i);
      }
    }
  }

  lemma AppendKeepsEarly(s: State, s': State, t: TxnId, pc: Pc, e: Entry)
    requires EarlyEntries(s) && LocksMatch(s) && AllFit(s) && t in s.txns && e.request == s.txns[t].request
    requires Touched(s.tables, s.txns[t].request) <= HoldsOf(s.txns[t])
    requires s'.txns == Goto(s, t, pc).txns && s'.history == s.history + [e]
    ensures forall u :: u in s'.txns && u != t && Place(s'.txns[u].pc).Some? ==> EarlyEntry(s', u)
  {
    forall u | u in s'.txns && u != t && Place(s'.txns[u].pc).Some?
      ensures EarlyEntry(s', u)
    {
      assert EarlyEntry(s, u);
      NoInterference(s, t, u);
      AppendTentative(s.history, e, Place(s.txns[u].pc).value, PatchOf(s.txns[u]));
    }
  }

  lemma CommitKeeps(s: State, t: TxnId, tables: Tables, o: Outcome)
    requires Inv(s) && Active(s, t) && Place(s.txns[t].pc) == None
    requires Serve(s.tables, s.txns[t].request) == Served(tables, o) && Writes(o)
    requires EndFits(tables, s.txns[t].request, o)
    requires Touched(s.tables, s.txns[t].request) <= HoldsOf(s.txns[t])
    ensures Keeps(s, Commit(s, t, tables, o))
  {
    ServeGrows(s.tables, s.txns[t].request);
    CommitLocks(s, t, tables, o);
    CommitKeepsFit(s, t, tables, o);
    CommitKeepsIds(s, t, tables, o);
    CommitKeepsHistory(s, t, tables, o);
    hide LocksMatch, AllFit, IdsFresh, PoolsExist, HistoryMatches, EarlyEntries, Explained, Grows, Serve, EndFits, Touched, HoldsOf, LetGo;
  }

  lemma CommitLocks(s: State, t: TxnId, tables: Tables, o: Outcome)
    requires LocksMatch(s) && t in s.txns
    ensures LocksMatch(Commit(s, t, tables, o))
  {
    LetGoLocks(s, t, Finished(o));
    LocksMatchSame(LetGo(s, t, Finished(o)), Commit(s, t, tables, o));
    hide LocksMatch;
  }

  lemma CommitKeepsHistory(s: State, t: TxnId, tables: Tables, o: Outcome)
    requires LocksMatch(s) && AllFit(s) && HistoryMatches(s) && EarlyEntries(s) && Explained(s)
    requires Active(s, t) && Place(s.txns[t].pc) == None
    requires Serve(s.tables, s.txns[t].request) == Served(tables, o) && Writes(o)
    requires Touched(s.tables, s.txns[t].request) <= HoldsOf(s.txns[t])
    ensures var s' := Commit(s, t, tables, o); HistoryMatches(s') && EarlyEntries(s') && Explained(s')
  {
    var s', e := Commit(s, t, tables, o), Entry(t, s.txns[t].request, o, true);
    AppendMatches(s, s', t, Finished(o), e);
    AppendKeepsEarly(s, s', t, Finished(o), e);
    ReplayAppend(s.history, e);
    AppendOutcomes(s.history, e);
    hide LocksMatch, AllFit, HistoryMatches, EarlyEntry, OutcomesExplained, Serve, Touched;
  }

  lemma CommitKeepsFit(s: State, t: TxnId, tables: Tables, o: Outcome)
    requires AllFit(s) && LocksMatch(s) && t in s.txns
    requires Serve(s.tables, s.txns[t].request).tables == tables
    requires EndFits(tables, s.txns[t].request, o)
    requires Touched(s.tables, s.txns[t].request) <= HoldsOf(s.txns[t])
    ensures AllFit(Commit(s, t, tables, o))
  {
    hide Serve, Touched, Agree, EndFits, LocksMatch;
    forall u | u in s.txns && u != t
      ensures Agree(s.tables, tables, HoldsOf(s.txns[u]))
    {
      Exclusive(s, t, u);
      ServeAgrees(s.tables, s.txns[t].request, HoldsOf(s.txns[u]));
    }
    OthersFit(s, t, tables);
  }

  lemma CommitKeepsIds(s: State, t: TxnId, tables: Tables, o: Outcome)
    requires IdsFresh(s) && PoolsExist(s.tables) && t in s.txns
    requires Serve(s.tables, s.txns[t].request).tables == tables
    ensures IdsFresh(Commit(s, t, tables, o)) && PoolsExist(tables)
  {
    ServeNewRows(s.tables, s.txns[t].request);
    hide Serve, PoolsExist;
    var s' := Commit(s, t, tables, o);
    forall u | u in s'.txns
      ensures Unborn(s', u)
    {
      if u != t {
        assert Unborn(s, u) && !SameId(s.txns[t].request, s.txns[u].request);
      }
    }
  }

  lemma EnterEarlyKeeps(s: State, t: TxnId, pc: Pc, o: Outcome)
    requires Inv(s) && Active(s, t) && Place(s.txns[t].pc) == None && Place(pc) == Some(|s.history|)
    requires Fits(s.tables, s.txns[t].request, pc) && Holds(s.txns[t].request, pc) == HoldsOf(s.txns[t])
    requires Touched(s.tables, s.txns[t].request) <= HoldsOf(s.txns[t])
    requires Serve(s.tables, s.txns[t].request) == Served(Patched(s.tables, PatchOf(Txn(s.txns[t].request, pc))), o)
    requires o == EarlyOutcome(Txn(s.txns[t].request, pc))
    ensures Keeps(s, EnterEarly(s, t, pc, o))
  {
    GrowsAtOnce(s.tables);
    var s', r := EnterEarly(s, t, pc, o), s.txns[t].request;
    var e := Entry(t, r, o, false);
    GotoLocks(s, t, pc);
    LocksMatchSame(Goto(s, t, pc), s');
    assert AllFit(s') && IdsFresh(s') by {
      hide Fits;
    }
    AppendMatches(s, s', t, pc, e);
    AppendKeepsEarly(s, s', t, pc, e);
    ReplayAppend(s.history, e);
    AppendOutcomes(s.history, e);
    assert s'.history[..|s.history|] == s.history;
    assert EarlyEntry(s', t);
    hide LocksMatch, AllFit, IdsFresh, PoolsExist, HistoryMatches, EarlyEntry, OutcomesExplained, Grows, Serve, Patched, Touched, Fits;
  }

  lemma FlipMatches(s: State, s': State, t: TxnId, at: nat)
    requires HistoryMatches(s) && Active(s, t) && Place(s.txns[t].pc) == Some(at) && at < |s.history|
    requires s.history[at].txn == t && Writes(s.history[at].outcome)
    requires s'.txns == Goto(s, t, Finished(s.history[at].outcome)).txns && s'.history == Flipped(s.history, at)
    ensures HistoryMatches(s')
  {
    forall i | 0 <= i < |s'.history|
      ensures EntryFits(s', i)
    {
      assert EntryFits(s, i);
    }
    forall u | u in s'.txns && s'.txns[u].pc.Finished? && Writes(s'.txns[u].pc.outcome)
      ensures exists i :: EnteredAt(s', u, i)
    {
      if u == t {
        assert EnteredAt(s', t, at);
      } else {
        var i :| EnteredAt(s, u, i);
        assert EnteredAt(s', u, i);
      }
    }
  }

  lemma FlipKeepsEarly(s: State, s': State, t: TxnId, o: Outcome)
    requires EarlyEntries(s) && LocksMatch(s) && AllFit(s) && t in s.txns && Place(s.txns[t].pc).Some?
    requires Place(s.txns[t].pc).value < |s.history|
    requires s'.txns == Goto(s, t, Finished(o)).txns && s'.history == Flipped(s.history, Place(s.txns[t].pc).value)
    ensures EarlyEntries(s')
  {
    var p := PatchOf(s.txns[t]);
    assert EarlyEntry(s, t);
    TargetHeld(s.tables, s.txns[t]);
    forall u | u in s'.txns && Place(s'.txns[u].pc).Some?
      ensures EarlyEntry(s', u)
    {
      assert EarlyEntry(s, u);
      TargetHeld(s.tables, s.txns[u]);
      Exclusive(s, t, u);
      FlipTentative(s.history, Place(s.txns[t].pc).value, p, Place(s.txns[u].pc).value, PatchOf(s.txns[u]));
    }
  }

  lemma CommitEarlyKeeps(s: State, t: TxnId, at: nat, tables: Tables, o: Outcome)
    requires Inv(s) && Active(s, t) && Place(s.txns[t].pc) == Some(at)
    requires tables == Patched(s.tables, PatchOf(s.txns[t]))
    requires o == EarlyOutcome(s.txns[t])
    requires Writes(o) && EndFits(tables, s.txns[t].request, o)
    ensures Keeps(s, CommitEarly(s, t, at, tables, o))
  {
    PatchUnpaid(s.tables, s.txns[t]);
    PatchAgrees(s.tables, PatchOf(s.txns[t]), {});
    CommitEarlyFits(s, t, at, tables, o);
    CommitEarlyHistory(s, t, at, tables, o);
    hide LocksMatch, AllFit, IdsFresh, PoolsExist, HistoryMatches, EarlyEntries, Explained, Grows;
  }

  lemma CommitEarlyFits(s: State, t: TxnId, at: nat, tables: Tables, o: Outcome)
    requires LocksMatch(s) && AllFit(s) && IdsFresh(s) && PoolsExist(s.tables)
    requires Active(s, t) && Place(s.txns[t].pc) == Some(at)
    requires tables == Patched(s.tables, PatchOf(s.txns[t])) && EndFits(tables, s.txns[t].request, o)
    ensures var s' := CommitEarly(s, t, at, tables, o); LocksMatch(s') && AllFit(s') && IdsFresh(s') && PoolsExist(s'.tables)
  {
    var s' := CommitEarly(s, t, at, tables, o);
    LetGoLocks(s, t, Finished(o));
    LocksMatchSame(LetGo(s, t, Finished(o)), s');
    PatchKeepsFit(s, t, tables, o);
    PatchKeepsIds(s, s', t, PatchOf(s.txns[t]));
    hide LocksMatch, IdsFresh, PoolsExist, EndFits;
  }

  lemma CommitEarlyHistory(s: State, t: TxnId, at: nat, tables: Tables, o: Outcome)
    requires LocksMatch(s) && AllFit(s) && HistoryMatches(s) && EarlyEntries(s) && Explained(s)
    requires Active(s, t) && Place(s.txns[t].pc) == Some(at)
    requires tables == Patched(s.tables, PatchOf(s.txns[t])) && Writes(o)
    requires o == EarlyOutcome(s.txns[t])
    ensures var s' := CommitEarly(s, t, at, tables, o); HistoryMatches(s') && EarlyEntries(s') && Explained(s')
  {
    var s', p := CommitEarly(s, t, at, tables, o), PatchOf(s.txns[t]);
    assert EarlyEntry(s, t);
    assert s'.history == Flipped(s.history, at);
    FlipMatches(s, s', t, at);
    FlipKeepsEarly(s, s', t, o);
    FlipReplay(s.history, at, p);
    FlipOutcomes(s.history, at, p);
    hide LocksMatch, AllFit, HistoryMatches, EarlyEntries, OutcomesExplained;
  }

  lemma PatchKeepsFit(s: State, t: TxnId, tables: Tables, o: Outcome)
    requires AllFit(s) && LocksMatch(s) && t in s.txns && Place(s.txns[t].pc).Some?
    requires tables == Patched(s.tables, PatchOf(s.txns[t]))
    requires EndFits(tables, s.txns[t].request, o)
    ensures forall u :: u in s.txns && u != t ==> Fits(tables, s.txns[u].request, s.txns[u].pc)
  {
    TargetHeld(s.tables, s.txns[t]);
    PatchUnpaid(s.tables, s.txns[t]);
    hide Agree, EndFits, LocksMatch, Patched, PatchOf;
    forall u | u in s.txns && u != t
      ensures Agree(s.tables, tables, HoldsOf(s.txns[u]))
    {
      Exclusive(s, t, u);
      PatchAgrees(s.tables, PatchOf(s.txns[t]), HoldsOf(s.txns[u]));
    }
    OthersFit(s, t, tables);
  }

  lemma PatchKeepsIds(s: State, s': State, t: TxnId, p: Patch)
    requires IdsFresh(s) && PoolsExist(s.tables) && t in s.txns
    requires s'.tables == Patched(s.tables, p) && exists pc: Pc :: pc.Finished? && s'.txns == Goto(s, t, pc).txns
    ensures IdsFresh(s') && PoolsExist(s'.tables)
  {
    forall u | u in s'.txns
      ensures Unborn(s', u)
    {
      assert Unborn(s, u);
    }
  }

  lemma BeginKeeps(s: State, t: TxnId, r: Request)
    requires Inv(s) && CanBegin(s, t, r)
    ensures Keeps(s, Begun(s, t, r))
  {
    GrowsAtOnce(s.tables);
    BeginKeepsLocks(s, t, r);
    BeginKeepsFit(s, t, r);
    BeginKeepsEarly(s, t, r);
    BeginKeepsHistory(s, t, r);
    hide LocksMatch, AllFit, IdsFresh, PoolsExist, HistoryMatches, EarlyEntries, OutcomesExplained, Grows;
  }

  lemma BeginKeepsLocks(s: State, t: TxnId, r: Request)
    requires LocksMatch(s) && t !in s.txns
    ensures LocksMatch(Begun(s, t, r))
  {
  }

  lemma BeginKeepsFit(s: State, t: TxnId, r: Request)
    requires AllFit(s) && IdsFresh(s) && CanBegin(s, t, r)
    ensures AllFit(Begun(s, t, r)) && IdsFresh(Begun(s, t, r))
  {
    var s' := Begun(s, t, r);
    forall u | u in s'.txns
      ensures Fits(s'.tables, s'.txns[u].request, s'.txns[u].pc) && Unborn(s', u)
    {
      if u != t {
        assert Unborn(s, u);
      }
    }
    hide Fits, Unborn;
  }

  lemma BeginKeepsEarly(s: State, t: TxnId, r: Request)
    requires EarlyEntries(s) && t !in s.txns
    ensures EarlyEntries(Begun(s, t, r))
  {
    var s' := Begun(s, t, r);
    forall u | u in s'.txns && Place(s'.txns[u].pc).Some?
      ensures EarlyEntry(s', u)
    {
      assert EarlyEntry(s, u);
    }
  }

  lemma BeginKeepsHistory(s: State, t: TxnId, r: Request)
    requires HistoryMatches(s) && t !in s.txns
    ensures HistoryMatches(Begun(s, t, r))
  {
    var s' := Begun(s, t, r);
    forall i | 0 <= i < |s'.history|
      ensures EntryFits(s', i)
    {
      assert EntryFits(s, i);
    }
    forall u | u in s'.txns && s'.txns[u].pc.Finished? && Writes(s'.txns[u].pc.outcome)
      ensures exists i :: EnteredAt(s', u, i)
    {
      var i :| EnteredAt(s, u, i);
      assert EnteredAt(s', u, i);
    }
  }

  // ---------------------------------------------------------------------------------------------
  // The laws of the serial runs hold of the committed tables
  // ---------------------------------------------------------------------------------------------

  ghost function ReleasedIn(h: seq<Entry>): set<OrderId> {
    if h == [] then {} else
      var front, last := h[..|h| - 1], h[|h| - 1];
      ReleasedIn(front) + if last.done then NewlyReleased(Replay(front), last.request) else {}
  }

  lemma {:induction false} ReplaySound(h: seq<Entry>)
    ensures Sound(Replay(h), ReleasedIn(h))
  {
    if h == [] {
      EmptyIsSound();
    } else {
      var front, last := h[..|h| - 1], h[|h| - 1];
      ReplaySound(front);
      if last.done {
        ServeKeepsSound(Replay(front), ReleasedIn(front), last.request);
      } else {
        assert ReleasedIn(h) == ReleasedIn(front);
      }
    }
  }

  // ---------------------------------------------------------------------------------------------
  // Every step keeps the invariant
  // ---------------------------------------------------------------------------------------------

  lemma StartFits(s: State, t: TxnId)
    requires t in s.txns && s.txns[t].pc == Start && Fits(s.tables, s.txns[t].request, Start)
    requires AdvanceStart(s, t).Went? && !s.txns[t].request.CreatePool?
    ensures t in AdvanceStart(s, t).next.txns
    ensures var next := AdvanceStart(s, t).next; var r, pc := s.txns[t].request, next.txns[t].pc;
            && Fits(s.tables, r, pc) && Place(pc) == None
            && if pc.Finished? then !Writes(pc.outcome) && next == LetGo(s, t, pc)
               else if pc == WantPool then next == Goto(s, t, pc)
               else exists l :: l !in s.locks && Holds(r, pc) == {l} && next == Lock(s, t, l, pc)
  {
    var r := s.txns[t].request;
    match r
    case ExpireOrder(oid, _) => assert Holds(r, HaveOrder(s.tables.orders[oid])) == {OrderLock(oid)};
    case Webhook(event, _, _, _, _) => assert Holds(r, HaveEvent) == {EventEntry(event)};
    case _ =>
  }

  lemma StartKeeps(s: State, t: TxnId)
    requires Inv(s) && t in s.txns && s.txns[t].pc == Start && AdvanceStart(s, t).Went?
    ensures Keeps(s, AdvanceStart(s, t).next)
  {
    var r := s.txns[t].request;
    assert Unborn(s, t) && Fits(s.tables, r, Start);
    hide Inv, Keeps;
    if r.CreatePool? {
      CommitKeeps(s, t, s.tables.(pools := s.tables.pools[r.pid := Pool(r.price, 0, 0, true)]), PoolCreated);
    } else {
      StartFits(s, t);
      hide Fits, AdvanceStart;
      var pc := AdvanceStart(s, t).next.txns[t].pc;
      if pc.Finished? {
        LetGoKeeps(s, t, pc);
      } else if pc == WantPool {
        GotoKeeps(s, t, pc);
      } else {
        var l :| l !in s.locks && Holds(r, pc) == {l} && AdvanceStart(s, t).next == Lock(s, t, l, pc);
        LockKeeps(s, t, l, pc);
      }
    }
  }

  lemma WantPoolKeeps(s: State, t: TxnId)
    requires Inv(s) && t in s.txns && s.txns[t].pc == WantPool && AdvanceWantPool(s, t).Went?
    ensures Keeps(s, AdvanceWantPool(s, t).next)
  {
    var r := s.txns[t].request;
    assert Fits(s.tables, r, WantPool);
    hide Inv, Keeps;
    if PidOf(r) !in s.tables.pools {
      LetGoKeeps(s, t, Finished(NoSuchPool));
    } else {
      LockKeeps(s, t, PoolLock(PidOf(r)), HavePool(s.tables.pools[PidOf(r)]));
    }
  }

  /** Where a transaction that has read the pool goes next fits what it has read. */
  lemma HavePoolFits(s: State, t: TxnId, row: Pool)
    requires t in s.txns && Fits(s.tables, s.txns[t].request, HavePool(row))
    ensures AdvanceHavePool(s, t, row).Went? && t in AdvanceHavePool(s, t, row).next.txns
    ensures var next := AdvanceHavePool(s, t, row).next; var r, pc := s.txns[t].request, next.txns[t].pc;
            && Fits(s.tables, r, pc) && Place(pc) == None
            && if pc.Finished? then !Writes(pc.outcome) && next == LetGo(s, t, pc)
               else Holds(r, pc) == Holds(r, HavePool(row)) && next == Goto(s, t, pc)
  {
  }

  lemma HavePoolKeeps(s: State, t: TxnId, row: Pool)
    requires Inv(s) && t in s.txns && s.txns[t].pc == HavePool(row)
    ensures AdvanceHavePool(s, t, row).Went? && Keeps(s, AdvanceHavePool(s, t, row).next)
  {
    HavePoolFits(s, t, row);
    hide Inv, Keeps, Fits, AdvanceHavePool;
    var pc := AdvanceHavePool(s, t, row).next.txns[t].pc;
    if pc.Finished? {
      LetGoKeeps(s, t, pc);
    } else {
      GotoKeeps(s, t, pc);
    }
  }

  lemma WantKeyKeeps(s: State, t: TxnId, row: Pool)
    requires Inv(s) && t in s.txns && s.txns[t].pc == WantKey(row) && AdvanceWantKey(s, t, row).Went?
    ensures Keeps(s, AdvanceWantKey(s, t, row).next)
  {
    var r := s.txns[t].request;
    assert Fits(s.tables, r, WantKey(row));
    hide Inv, Keeps;
    if r.key == None {
      GotoKeeps(s, t, Ready(row));
    } else if KeyTaken(s.tables, r) {
      LetGoKeeps(s, t, Reread);
    } else {
      LockKeeps(s, t, KeyEntry(r.buyer, r.key.value), Ready(row));
    }
  }

  /** The write computed from the locked row is the serial effect on the tables as they are now. */
  lemma OrderIsServed(t: Tables, r: Request, row: Pool)
    requires Fits(t, r, Ready(row)) && r.PlaceOrder? && r.oid !in t.orders
    ensures Serve(t, r) == Served(OrderWritten(t, r, row), Placed(r.oid))
    ensures EndFits(OrderWritten(t, r, row), r, Placed(r.oid))
  {
  }

  lemma ContributionIsServed(t: Tables, r: Request, row: Pool)
    requires Fits(t, r, Ready(row)) && r.Contribute?
    ensures Serve(t, r) == Served(ContributionWritten(t, r, row), Contributed)
  {
  }

  lemma ClosingIsServed(t: Tables, r: Request, row: Pool)
    requires Fits(t, r, Ready(row)) && r.ClosePool?
    ensures Serve(t, r) == Served(ClosingWritten(t, r.pid), Closed)
  {
  }

  lemma ExpiryIsServed(t: Tables, r: Request, order: Order, found: Option<Pool>)
    requires Fits(t, r, ReadyExpire(order, found))
    ensures Serve(t, r) == Served(ExpiryWritten(t, r.oid, order, found), Released)
    ensures EndFits(ExpiryWritten(t, r.oid, order, found), r, Released)
  {
  }

  lemma PaymentIsServed(t: Tables, r: Request)
    requires Fits(t, r, ReadyPay) && CountPayments(t.payments, OidOf(r)) == 0
    ensures Serve(t, r) == Served(PaymentWritten(t, r), PaymentTaken)
  {
  }

  lemma ReadyKeeps(s: State, t: TxnId, row: Pool)
    requires Inv(s) && t in s.txns && s.txns[t].pc == Ready(row)
    ensures AdvanceReady(s, t, row).Went? && Keeps(s, AdvanceReady(s, t, row).next)
  {
    var r := s.txns[t].request;
    assert Fits(s.tables, r, Ready(row)) && Unborn(s, t);
    hide Inv, Keeps;
    if r.PlaceOrder? {
      OrderIsServed(s.tables, r, row);
      CommitKeeps(s, t, OrderWritten(s.tables, r, row), Placed(r.oid));
    } else if r.Contribute? {
      ContributionIsServed(s.tables, r, row);
      CommitKeeps(s, t, ContributionWritten(s.tables, r, row), Contributed);
    } else {
      ClosingIsServed(s.tables, r, row);
      CommitKeeps(s, t, ClosingWritten(s.tables, r.pid), Closed);
    }
  }

  /** A lost race on the idempotency key always finds the winner's order: no re-raise. */
  lemma RereadKeeps(s: State, t: TxnId)
    requires Inv(s) && t in s.txns && s.txns[t].pc == Reread
    ensures AdvanceReread(s, t).Went? && Keeps(s, AdvanceReread(s, t).next)
  {
    var r := s.txns[t].request;
    assert Fits(s.tables, r, Reread);
    hide Inv, Keeps;
    LetGoKeeps(s, t, Finished(Returned(Existing(s.tables, r))));
  }

  lemma HaveOrderKeeps(s: State, t: TxnId, order: Order)
    requires Inv(s) && t in s.txns && s.txns[t].pc == HaveOrder(order)
    ensures AdvanceHaveOrder(s, t, order).Went? && Keeps(s, AdvanceHaveOrder(s, t, order).next)
  {
    var r := s.txns[t].request;
    assert Fits(s.tables, r, HaveOrder(order));
    hide Inv, Keeps;
    if r.ExpireOrder? && (order.status != Pending || order.createdAt >= r.cutoff) {
      LetGoKeeps(s, t, Finished(Skipped));
    } else if r.ExpireOrder? {
      GotoKeeps(s, t, WantOrderPool(order));
    } else {
      GotoKeeps(s, t, if order.status == Settled then EventOnly(true) else ReadyPay);
    }
  }

  lemma WantOrderPoolKeeps(s: State, t: TxnId, order: Order)
    requires Inv(s) && t in s.txns && s.txns[t].pc == WantOrderPool(order) && AdvanceWantOrderPool(s, t, order).Went?
    ensures Keeps(s, AdvanceWantOrderPool(s, t, order).next)
  {
    assert Fits(s.tables, s.txns[t].request, WantOrderPool(order));
    assert order.pool in s.tables.pools;
    hide Inv, Keeps;
    LockKeeps(s, t, PoolLock(order.pool), ReadyExpire(order, Some(s.tables.pools[order.pool])));
  }

  lemma ReadyExpireKeeps(s: State, t: TxnId, order: Order, found: Option<Pool>)
    requires Inv(s) && t in s.txns && s.txns[t].pc == ReadyExpire(order, found)
    ensures Keeps(s, Commit(s, t, ExpiryWritten(s.tables, OidOf(s.txns[t].request), order, found), Released))
  {
    var r := s.txns[t].request;
    assert Fits(s.tables, r, ReadyExpire(order, found));
    hide Inv, Keeps;
    ExpiryIsServed(s.tables, r, order, found);
    CommitKeeps(s, t, ExpiryWritten(s.tables, OidOf(r), order, found), Released);
  }

  lemma HaveEventKeeps(s: State, t: TxnId)
    requires Inv(s) && t in s.txns && s.txns[t].pc == HaveEvent && AdvanceHaveEvent(s, t).Went?
    ensures Keeps(s, AdvanceHaveEvent(s, t).next)
  {
    var r := s.txns[t].request;
    assert Fits(s.tables, r, HaveEvent);
    hide Inv, Keeps;
    if !Names(r) {
      GotoKeeps(s, t, EventOnly(false));
    } else if r.order.value !in s.tables.orders {
      EnterEarlyKeeps(s, t, Orphan(|s.history|), Recorded);
    } else {
      LockKeeps(s, t, OrderLock(r.order.value), HaveOrder(s.tables.orders[r.order.value]));
    }
  }

  lemma EventOnlyKeeps(s: State, t: TxnId)
    requires Inv(s) && t in s.txns && s.txns[t].pc.EventOnly?
    ensures AdvanceWebhookEnd(s, t).Went? && Keeps(s, AdvanceWebhookEnd(s, t).next)
  {
    var r := s.txns[t].request;
    assert Fits(s.tables, r, s.txns[t].pc);
    hide Inv, Keeps;
    CommitKeeps(s, t, AddEvent(s.tables, r.event, r.reference), Recorded);
  }

  lemma OrphanKeeps(s: State, t: TxnId)
    requires Inv(s) && t in s.txns && s.txns[t].pc.Orphan?
    ensures AdvanceWebhookEnd(s, t).Went? && Keeps(s, AdvanceWebhookEnd(s, t).next)
  {
    var r, pc := s.txns[t].request, s.txns[t].pc;
    assert Fits(s.tables, r, pc) && EarlyEntry(s, t);
    hide Inv, Keeps;
    CommitEarlyKeeps(s, t, pc.at, AddEvent(s.tables, r.event, r.reference), Recorded);
  }

  /** Taking the payment never hits the unique constraint on payments. */
  lemma ReadyPayKeeps(s: State, t: TxnId)
    requires Inv(s) && t in s.txns && s.txns[t].pc == ReadyPay
    ensures AdvanceWebhookEnd(s, t).Went? && Keeps(s, AdvanceWebhookEnd(s, t).next)
    ensures CountPayments(s.tables.payments, OidOf(s.txns[t].request)) == 0
  {
    var r := s.txns[t].request;
    assert Fits(s.tables, r, ReadyPay);
    ReplaySound(s.history);
    assert PaymentsMatch(s.tables);
    NoPaymentYet(s.tables, OidOf(r));
    hide Inv, Keeps, Sound;
    PaymentIsServed(s.tables, r);
    CommitKeeps(s, t, PaymentWritten(s.tables, r), PaymentTaken);
  }

  lemma CheckPaidKeeps(s: State, t: TxnId)
    requires Inv(s) && t in s.txns && s.txns[t].pc.CheckPaid?
    ensures AdvanceShareOut(s, t).Went? && Keeps(s, AdvanceShareOut(s, t).next)
  {
    var r := s.txns[t].request;
    assert Fits(s.tables, r, CheckPaid);
    hide Inv, Keeps, Ordered;
    if Of(s.tables.payouts, r.pid) != [] {
      LetGoKeeps(s, t, Finished(AlreadyPaidOut));
    } else {
      GotoKeeps(s, t, ReadRows);
    }
  }

  lemma ReadRowsKeeps(s: State, t: TxnId)
    requires Inv(s) && t in s.txns && s.txns[t].pc.ReadRows?
    ensures AdvanceShareOut(s, t).Went? && Keeps(s, AdvanceShareOut(s, t).next)
  {
    var r := s.txns[t].request;
    assert Fits(s.tables, r, ReadRows);
    hide Inv, Keeps, Ordered;
    var rows := Ordered(Of(s.tables.contributions, r.pid), r.tie);
    if rows == [] {
      LetGoKeeps(s, t, Finished(NothingToPay));
    } else {
      GotoKeeps(s, t, HaveRows(rows));
    }
  }

  /** Served at the revenue read, the share-out pays what it has just computed. */
  lemma ShareOutIsServed(t: Tables, r: Request, rows: seq<Share>)
    requires Fits(t, r, HaveRows(rows)) && 0 < Revenue(t.orders, r.pid)
    ensures var created := PayoutsFor(rows, Revenue(t.orders, r.pid));
            Serve(t, r) == Served(AddPayouts(t, r.pid, created), Distributed(created))
  {
    hide Ordered, PayoutsFor, Revenue;
  }

  /** Having read a revenue, the share-out can be entered in the serial order. */
  lemma RevenueReadFits(t: Tables, r: Request, rows: seq<Share>, at: nat)
    requires Fits(t, r, HaveRows(rows)) && 0 < Revenue(t.orders, r.pid)
    ensures var pc := ReadyPayouts(rows, Revenue(t.orders, r.pid), at);
            && Fits(t, r, pc) && Holds(r, pc) == Holds(r, HaveRows(rows)) && Touched(t, r) <= Holds(r, pc)
  {
    hide Serve, Ordered, PayoutsFor, Revenue, EndFits;
  }

  lemma RevenueReadServed(t: Tables, r: Request, rows: seq<Share>, at: nat)
    requires Fits(t, r, HaveRows(rows)) && 0 < Revenue(t.orders, r.pid)
    ensures var x := Txn(r, ReadyPayouts(rows, Revenue(t.orders, r.pid), at));
            Serve(t, r) == Served(Patched(t, PatchOf(x)), EarlyOutcome(x))
  {
    ShareOutIsServed(t, r, rows);
    hide Serve, Ordered, PayoutsFor, Revenue, EndFits;
  }

  lemma RevenueReadStep(s: State, t: TxnId)
    requires t in s.txns && s.txns[t].request.Distribute? && s.txns[t].pc.HaveRows? && s.txns[t].pc.rows != []
    ensures var r, rows := s.txns[t].request, s.txns[t].pc.rows; var revenue := Revenue(s.tables.orders, r.pid);
            AdvanceShareOut(s, t) ==
              if revenue <= 0 then Went(LetGo(s, t, Finished(NothingToPay)))
              else var pc := ReadyPayouts(rows, revenue, |s.history|); Went(EnterEarly(s, t, pc, EarlyOutcome(Txn(r, pc))))
  {
    hide PayoutsFor, Revenue, Ordered;
  }

  lemma FitsNow(s: State, t: TxnId)
    requires Inv(s) && t in s.txns
    ensures Fits(s.tables, s.txns[t].request, s.txns[t].pc)
  {
  }

  lemma HaveRowsKeeps(s: State, t: TxnId)
    requires Inv(s) && t in s.txns && s.txns[t].pc.HaveRows?
    ensures AdvanceShareOut(s, t).Went? && Keeps(s, AdvanceShareOut(s, t).next)
  {
    var r, rows := s.txns[t].request, s.txns[t].pc.rows;
    FitsNow(s, t);
    RevenueReadStep(s, t);
    hide Inv, Keeps, Ordered, PayoutsFor, Revenue, AdvanceShareOut, EarlyOutcome, PatchOf, Touched, Serve;
    var revenue := Revenue(s.tables.orders, r.pid);
    if revenue <= 0 {
      LetGoKeeps(s, t, Finished(NothingToPay));
    } else {
      EnterShareOut(s, t);
    }
  }

  lemma EnterShareOut(s: State, t: TxnId)
    requires Inv(s) && t in s.txns && s.txns[t].pc.HaveRows? && Fits(s.tables, s.txns[t].request, s.txns[t].pc)
    requires 0 < Revenue(s.tables.orders, s.txns[t].request.pid)
    ensures var r := s.txns[t].request;
            var pc := ReadyPayouts(s.txns[t].pc.rows, Revenue(s.tables.orders, r.pid), |s.history|);
            Keeps(s, EnterEarly(s, t, pc, EarlyOutcome(Txn(r, pc))))
  {
    var r, rows := s.txns[t].request, s.txns[t].pc.rows;
    var pc := ReadyPayouts(rows, Revenue(s.tables.orders, r.pid), |s.history|);
    RevenueReadFits(s.tables, r, rows, |s.history|);
    RevenueReadServed(s.tables, r, rows, |s.history|);
    hide Inv, Keeps, Ordered, PayoutsFor, Revenue, EarlyOutcome, PatchOf, Serve, EndFits;
    EnterEarlyKeeps(s, t, pc, EarlyOutcome(Txn(r, pc)));
  }

  lemma SomebodyPaid(rows: seq<Share>, revenue: nat)
    requires rows != []
    ensures PayoutsFor(rows, revenue) != []
  {
    PayoutRowsMeaning(rows, Amounts(rows, revenue));
  }

  /** The unique constraint on payouts is never hit: guard #2 is unreachable. */
  lemma ReadyPayoutsKeeps(s: State, t: TxnId)
    requires Inv(s) && t in s.txns && s.txns[t].pc.ReadyPayouts?
    ensures AdvanceShareOut(s, t).Went? && Keeps(s, AdvanceShareOut(s, t).next)
    ensures var txns := AdvanceShareOut(s, t).next.txns; t in txns && txns[t].pc.Finished? && txns[t].pc.outcome.Distributed?
  {
    var r, pc := s.txns[t].request, s.txns[t].pc;
    var created := PayoutsFor(pc.rows, pc.revenue);
    assert Fits(s.tables, r, pc) && EarlyEntry(s, t);
    hide Inv, Keeps, EarlyEntry, Ordered, PayoutsFor, Revenue;
    NoConflict(Of(s.tables.contributions, r.pid), r.tie, pc.revenue);
    hide RepeatsFarmer;
    SomebodyPaid(pc.rows, pc.revenue);
    assert [] + created == created;
    assert AdvanceShareOut(s, t) == Went(CommitEarly(s, t, pc.at, AddPayouts(s.tables, r.pid, created), Distributed(created)));
    hide AdvanceShareOut;
    CommitEarlyKeeps(s, t, pc.at, AddPayouts(s.tables, r.pid, created), Distributed(created));
  }

  lemma AdvanceKeeps(s: State, t: TxnId)
    requires Inv(s) && t in s.txns && Advance(s, t).Went?
    ensures Keeps(s, Advance(s, t).next)
  {
    hide Inv, Keeps;
    match s.txns[t].pc
    case Start => StartKeeps(s, t);
    case WantPool => WantPoolKeeps(s, t);
    case HavePool(row) => HavePoolKeeps(s, t, row);
    case WantKey(row) => WantKeyKeeps(s, t, row);
    case Ready(row) => ReadyKeeps(s, t, row);
    case Reread => RereadKeeps(s, t);
    case HaveOrder(order) => HaveOrderKeeps(s, t, order);
    case WantOrderPool(order) => WantOrderPoolKeeps(s, t, order);
    case ReadyExpire(order, found) => ReadyExpireKeeps(s, t, order, found);
    case HaveEvent => HaveEventKeeps(s, t);
    case EventOnly(_) => EventOnlyKeeps(s, t);
    case Orphan(_) => OrphanKeeps(s, t);
    case ReadyPay => ReadyPayKeeps(s, t);
    case CheckPaid => CheckPaidKeeps(s, t);
    case ReadRows => ReadRowsKeeps(s, t);
    case HaveRows(_) => HaveRowsKeeps(s, t);
    case ReadyPayouts(_, _, _) => ReadyPayoutsKeeps(s, t);
    case Finished(_) => assert false;
  }

  /** A transaction can die at any point: its locks go, its private writes are lost. */
  lemma CrashKeeps(s: State, t: TxnId)
    requires Inv(s) && Active(s, t)
    ensures Keeps(s, LetGo(s, t, Finished(Aborted)))
  {
    LetGoKeeps(s, t, Finished(Aborted));
  }

  lemma NextKeeps(s: State, s': State)
    requires Inv(s) && Next(s, s')
    ensures Keeps(s, s')
  {
    hide Inv, Keeps, Advance;
    if t, r :| CanBegin(s, t, r) && s' == Begun(s, t, r) {
      BeginKeeps(s, t, r);
    } else if t :| t in s.txns && Advance(s, t) == Went(s') {
      AdvanceKeeps(s, t);
    } else {
      var t :| Active(s, t) && s' == LetGo(s, t, Finished(Aborted));
      CrashKeeps(s, t);
    }
  }

  lemma {:induction false} RunsKeep(trace: seq<State>, i: nat)
    requires Run(trace) && i < |trace|
    ensures Inv(trace[i])
  {
    hide Inv, Next;
    if i == 0 {
      InitialInv();
    } else {
      RunsKeep(trace, i - 1);
      NextKeeps(trace[i - 1], trace[i]);
    }
  }

  lemma GrowsThrough(t: Tables, u: Tables, v: Tables)
    requires Grows(t, u) && Grows(u, v)
    ensures Grows(t, v)
  {
  }

  /** What has been committed at one point of a run still stands at every later point. */
  lemma {:induction false} RunsGrow(trace: seq<State>, i: nat, j: nat)
    requires Run(trace) && i <= j < |trace|
    ensures Grows(trace[i].tables, trace[j].tables)
  {
    hide Inv, Next, Grows;
    if i == j {
      GrowsAtOnce(trace[i].tables);
    } else {
      RunsGrow(trace, i, j - 1);
      RunsKeep(trace, j - 1);
      NextKeeps(trace[j - 1], trace[j]);
      GrowsThrough(trace[i].tables, trace[j - 1].tables, trace[j].tables);
    }
  }

  // ---------------------------------------------------------------------------------------------
  // Serializability
  // ---------------------------------------------------------------------------------------------

  /** The committed transactions in serial order. */
  function Committed(h: seq<Entry>): seq<Entry> {
    if h == [] then [] else
      Committed(h[..|h| - 1]) + if h[|h| - 1].done then [h[|h| - 1]] else []
  }

  function Requests(es: seq<Entry>): seq<Request> {
    if es == [] then [] else Requests(es[..|es| - 1]) + [es[|es| - 1].request]
  }

  lemma {:induction false} ReplayIsServing(h: seq<Entry>)
    ensures Replay(h) == ServeAll(EMPTY_TABLES, Requests(Committed(h)))
    ensures ReleasedIn(h) == ReleasedBy(EMPTY_TABLES, Requests(Committed(h)))
  {
    if h != [] {
      var front, last := h[..|h| - 1], h[|h| - 1];
      ReplayIsServing(front);
      if last.done {
        var es := Committed(h);
        assert es[..|es| - 1] == Committed(front);
        var rs := Requests(es);
        assert rs[..|rs| - 1] == Requests(Committed(front));
        hide Serve;
      } else {
        assert Committed(h) == Committed(front);
        assert ReleasedIn(h) == ReleasedIn(front);
      }
    }
  }

  /** Where the i-th committed entry sits in the history. */
  lemma {:induction false} CommittedAt(h: seq<Entry>, i: nat) returns (k: nat)
    requires i < |Committed(h)|
    ensures k < |h| && h[k].done && h[k] == Committed(h)[i] && Committed(h[..k]) == Committed(h)[..i]
  {
    var front, last := h[..|h| - 1], h[|h| - 1];
    if i < |Committed(front)| {
      k := CommittedAt(front, i);
      assert h[..k] == front[..k];
      assert Committed(h)[..i] == Committed(front)[..i];
    } else {
      k := |h| - 1;
      assert Committed(h)[..i] == Committed(front);
    }
  }

  lemma {:induction false} DoneIsCommitted(h: seq<Entry>, k: nat) returns (i: nat)
    requires k < |h| && h[k].done
    ensures i < |Committed(h)| && Committed(h)[i] == h[k]
  {
    var front := h[..|h| - 1];
    if k == |h| - 1 {
      i := |Committed(front)|;
    } else {
      i := DoneIsCommitted(front, k);
    }
  }

  ghost predicate CommittedWriter(s: State, t: TxnId, o: Outcome) {
    t in s.txns && s.txns[t].pc == Finished(o) && Writes(o)
  }

  /** In every state of every run: the committed tables are those of serving, one after the other,
      the requests of exactly the transactions that committed a write, each once; and each of them
      got the answer it gets in that serial run. Whatever was rejected, rolled back or lost left no
      trace. */
  lemma Serializable(trace: seq<State>, n: nat)
    requires Run(trace) && n < |trace|
    ensures var s := trace[n]; var es := Committed(s.history);
            && s.tables == ServeAll(EMPTY_TABLES, Requests(es))
            && (forall i :: 0 <= i < |es| ==>
                  && CommittedWriter(s, es[i].txn, es[i].outcome) && s.txns[es[i].txn].request == es[i].request
                  && Serve(ServeAll(EMPTY_TABLES, Requests(es[..i])), es[i].request).outcome == es[i].outcome)
            && (forall i, j :: 0 <= i < |es| && 0 <= j < |es| && i != j ==> es[i].txn != es[j].txn)
            && (forall t, o :: CommittedWriter(s, t, o) ==> exists i :: 0 <= i < |es| && es[i].txn == t && es[i].outcome == o)
  {
    var s := trace[n];
    var h, es := s.history, Committed(s.history);
    RunsKeep(trace, n);
    ReplayIsServing(h);
    forall i | 0 <= i < |es|
      ensures CommittedWriter(s, es[i].txn, es[i].outcome) && s.txns[es[i].txn].request == es[i].request
      ensures Serve(ServeAll(EMPTY_TABLES, Requests(es[..i])), es[i].request).outcome == es[i].outcome
    {
      EntryExplained(s, i);
    }
    forall i, j | 0 <= i < j < |es|
      ensures es[i].txn != es[j].txn
    {
      EntriesDistinct(s, i, j);
    }
    forall t, o | CommittedWriter(s, t, o)
      ensures exists i :: 0 <= i < |es| && es[i].txn == t && es[i].outcome == o
    {
      var i := WriterEntered(s, t, o);
    }
    hide Inv, Serve, ServeAll, Committed, CommittedWriter;
  }

  lemma EntryExplained(s: State, i: nat)
    requires Inv(s) && i < |Committed(s.history)|
    ensures var e := Committed(s.history)[i];
            && CommittedWriter(s, e.txn, e.outcome) && s.txns[e.txn].request == e.request
            && Serve(ServeAll(EMPTY_TABLES, Requests(Committed(s.history)[..i])), e.request).outcome == e.outcome
  {
    var k := CommittedAt(s.history, i);
    ReplayIsServing(s.history[..k]);
    assert EntryFits(s, k);
    hide LocksMatch, AllFit, IdsFresh, EarlyEntries, Serve;
  }

  lemma {:induction false} EntriesDistinct(s: State, i: nat, j: nat)
    requires Inv(s) && i < j < |Committed(s.history)|
    ensures Committed(s.history)[i].txn != Committed(s.history)[j].txn
  {
    var h := s.history;
    var k := CommittedAt(h, j);
    assert Committed(h)[..j][i] == Committed(h)[i];
    var m := CommittedAt(h[..k], i);
    hide LocksMatch, AllFit, IdsFresh, EarlyEntries, EntryFits;
  }

  lemma WriterEntered(s: State, t: TxnId, o: Outcome) returns (i: nat)
    requires Inv(s) && CommittedWriter(s, t, o)
    ensures i < |Committed(s.history)| && Committed(s.history)[i].txn == t && Committed(s.history)[i].outcome == o
  {
    var k :| EnteredAt(s, t, k);
    assert EntryFits(s, k);
    i := DoneIsCommitted(s.history, k);
  }

  // ---------------------------------------------------------------------------------------------
  // Commits are served on the spot
  // ---------------------------------------------------------------------------------------------

  /** A step that leaves the tables alone, or commits what serving the request would do now. */
  ghost predicate CommitsNow(s: State, t: TxnId, s': State)
    requires t in s.txns
  {
    || s'.tables == s.tables
    || (t in s'.txns && s'.txns[t].pc.Finished? && Serve(s.tables, s.txns[t].request) == Served(s'.tables, s'.txns[t].pc.outcome))
  }

  lemma PoolCommitsNow(s: State, t: TxnId)
    requires Inv(s) && t in s.txns && Advance(s, t).Went?
    requires s.txns[t].pc.Start? || s.txns[t].pc.Ready? || s.txns[t].pc.ReadyExpire?
    ensures CommitsNow(s, t, Advance(s, t).next)
  {
    var r, pc := s.txns[t].request, s.txns[t].pc;
    assert Unborn(s, t) && Fits(s.tables, r, pc);
    hide Inv;
    if pc.Ready? {
      hide Serve;
      if r.PlaceOrder? {
        OrderIsServed(s.tables, r, pc.row);
      } else if r.Contribute? {
        ContributionIsServed(s.tables, r, pc.row);
      } else {
        ClosingIsServed(s.tables, r, pc.row);
      }
      hide OrderWritten, ContributionWritten, ClosingWritten;
    } else if pc.ReadyExpire? {
      ExpiryIsServed(s.tables, r, pc.order, pc.found);
      hide Serve, ExpiryWritten;
    }
  }

  lemma WebhookCommitsNow(s: State, t: TxnId)
    requires Inv(s) && t in s.txns && Advance(s, t).Went?
    requires s.txns[t].pc.EventOnly? || s.txns[t].pc.ReadyPay?
    ensures CommitsNow(s, t, Advance(s, t).next)
  {
    var r, pc := s.txns[t].request, s.txns[t].pc;
    assert Fits(s.tables, r, pc);
    if pc.ReadyPay? {
      ReadyPayKeeps(s, t);
      PaymentIsServed(s.tables, r);
      hide Serve, PaymentWritten;
    }
    hide Inv, Keeps;
  }

  /** Every committing step does to the tables, as they are at that moment, what serving its request
      would do, except that a share-out and an orphan webhook answer as of their place in the serial
      order; these two leave pools and orders alone. */
  lemma CommitsAreServed(s: State, t: TxnId)
    requires Inv(s) && t in s.txns && Advance(s, t).Went?
    ensures var s' := Advance(s, t).next;
            if Place(s.txns[t].pc).Some? then s'.tables.pools == s.tables.pools && s'.tables.orders == s.tables.orders
            else CommitsNow(s, t, s')
  {
    var pc := s.txns[t].pc;
    hide CommitsNow;
    if pc.Start? || pc.Ready? || pc.ReadyExpire? {
      PoolCommitsNow(s, t);
    } else if pc.EventOnly? || pc.ReadyPay? {
      WebhookCommitsNow(s, t);
    } else if Place(pc).Some? {
      EarlyCommitsAside(s, t);
    } else {
      NothingCommitted(s, t);
    }
    hide Inv, Advance;
  }

  lemma NothingCommitted(s: State, t: TxnId)
    requires t in s.txns && Advance(s, t).Went? && Place(s.txns[t].pc) == None
    requires var pc := s.txns[t].pc; !pc.Start? && !pc.Ready? && !pc.ReadyExpire? && !pc.EventOnly? && !pc.ReadyPay?
    ensures CommitsNow(s, t, Advance(s, t).next)
  {
    hide Serve, PayoutsFor, Ordered, Revenue;
  }

  lemma EarlyCommitsAside(s: State, t: TxnId)
    requires t in s.txns && Place(s.txns[t].pc).Some? && Advance(s, t).Went?
    ensures var s' := Advance(s, t).next; s'.tables.pools == s.tables.pools && s'.tables.orders == s.tables.orders
  {
    hide PayoutsFor, SharesFarmer, RepeatsFarmer;
    if s.txns[t].pc.Orphan? {
      assert Advance(s, t) == AdvanceWebhookEnd(s, t);
    } else {
      assert Advance(s, t) == AdvanceShareOut(s, t);
    }
    hide Advance;
  }
}
