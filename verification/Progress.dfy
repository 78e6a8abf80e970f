/** No deadlock: transactions take what they hold in one global order, so somebody can always step,
    and every request ends. */
module Progress {
  import opened Common
  import opened PayoutSplit
  import opened Ledger
  import opened Transactions
  import opened SerialOrder
  import opened Serializability

  /** Event entries before order rows before pool rows before idempotency keys. */
  function Rank(r: Resource): nat {
    match r
    case EventEntry(_) => 0
    case OrderLock(_) => 1
    case PoolLock(_) => 2
    case KeyEntry(_, _) => 3
  }

  ghost predicate WaitsFor(s: State, t: TxnId, u: TxnId) {
    t in s.txns && Advance(s, t).Blocked? && Advance(s, t).on in s.locks && s.locks[Advance(s, t).on] == u
  }

  /** A transaction only ever waits for something above everything it holds, held by another. */
  lemma WaitsUpward(s: State, t: TxnId)
    requires Inv(s) && t in s.txns && Advance(s, t).Blocked?
    ensures var on := Advance(s, t).on;
            && (forall r :: r in HoldsOf(s.txns[t]) ==> Rank(r) < Rank(on))
            && on in s.locks && s.locks[on] in s.txns && s.locks[on] != t && on in HoldsOf(s.txns[s.locks[on]])
            && Active(s, s.locks[on])
  {
    var r, pc := s.txns[t].request, s.txns[t].pc;
    assert Fits(s.tables, r, pc);
    HeldByActive(s, Advance(s, t).on);
    hide Inv;
  }

  lemma HeldByActive(s: State, on: Resource)
    requires LocksMatch(s)
    ensures on in s.locks ==> Active(s, s.locks[on]) && on in HoldsOf(s.txns[s.locks[on]])
  {
  }

  lemma NextWaitIsHigher(s: State, t: TxnId, u: TxnId)
    requires Inv(s) && WaitsFor(s, t, u) && u in s.txns && Advance(s, u).Blocked?
    ensures Rank(Advance(s, t).on) < Rank(Advance(s, u).on)
  {
    WaitsUpward(s, t);
    WaitsUpward(s, u);
    hide Inv;
  }

  ghost predicate WaitPath(s: State, path: seq<TxnId>) {
    forall i :: 0 <= i < |path| - 1 ==> WaitsFor(s, path[i], path[i + 1])
  }

  lemma {:induction false} PathClimbs(s: State, path: seq<TxnId>, i: nat, j: nat)
    requires Inv(s) && WaitPath(s, path) && i < j < |path| - 1
    ensures path[i] in s.txns && Advance(s, path[i]).Blocked? && path[j] in s.txns && Advance(s, path[j]).Blocked?
    ensures Rank(Advance(s, path[i]).on) < Rank(Advance(s, path[j]).on)
  {
    hide Inv, Advance;
    assert WaitsFor(s, path[j - 1], path[j]) && WaitsFor(s, path[j], path[j + 1]);
    NextWaitIsHigher(s, path[j - 1], path[j]);
    if i < j - 1 {
      PathClimbs(s, path, i, j - 1);
    }
  }

  /** The waits-for graph has no cycle. */
  lemma NoDeadlock(trace: seq<State>, n: nat, path: seq<TxnId>)
    requires Run(trace) && n < |trace|
    requires |path| > 1 && WaitPath(trace[n], path)
    ensures path[0] != path[|path| - 1]
  {
    var s := trace[n];
    RunsKeep(trace, n);
    hide Inv, Advance, Next;
    if path[0] == path[|path| - 1] {
      assert WaitsFor(s, path[0], path[1]);
      assert WaitsFor(s, path[|path| - 2], path[|path| - 1]);
      NextWaitIsHigher(s, path[|path| - 2], path[0]);
      if |path| > 2 {
        PathClimbs(s, path, 0, |path| - 2);
      }
      assert false;
    }
  }

  lemma ActiveIsNotOver(s: State, t: TxnId)
    requires Inv(s) && Active(s, t)
    ensures !Advance(s, t).Over?
  {
    assert Fits(s.tables, s.txns[t].request, s.txns[t].pc);
    hide Inv;
  }

  /** Following the waits from any unfinished transaction ends at one that can step. */
  lemma {:induction false} SomebodySteps(s: State, t: TxnId) returns (u: TxnId)
    requires Inv(s) && Active(s, t)
    ensures Active(s, u) && Advance(s, u).Went?
    decreases if Advance(s, t).Blocked? then 4 - Rank(Advance(s, t).on) else 0
  {
    ActiveIsNotOver(s, t);
    hide Inv, Advance;
    if Advance(s, t).Went? {
      u := t;
    } else {
      WaitsUpward(s, t);
      var holder := s.locks[Advance(s, t).on];
      if Advance(s, holder).Blocked? {
        NextWaitIsHigher(s, t, holder);
      }
      u := SomebodySteps(s, holder);
    }
  }

  // ---------------------------------------------------------------------------------------------
  // Termination
  // ---------------------------------------------------------------------------------------------

  /** More than the steps a transaction still has before it. */
  function Remaining(pc: Pc): nat {
    match pc
    case Start => 7
    case WantPool => 6
    case HavePool(_) => 5
    case HaveEvent => 4
    case CheckPaid => 4
    case HaveOrder(_) => 3
    case ReadRows => 3
    case WantKey(_) => 2
    case WantOrderPool(_) => 2
    case HaveRows(_) => 2
    case Finished(_) => 0
    case _ => 1
  }

  ghost function Shares(txns: map<TxnId, Txn>): (shares: map<TxnId, int>)
    ensures shares.Keys == txns.Keys
    ensures forall t :: t in txns ==> shares[t] == Remaining(txns[t].pc)
  {
    if txns == map[] then map[] else
      var t :| t in txns;
      Shares(txns - {t})[t := Remaining(txns[t].pc)]
  }

  ghost function Work(s: State): int {
    Total(Shares(s.txns))
  }

  /** A step that is not the arrival of a new request. */
  ghost predicate Drains(s: State, s': State) {
    || (exists t :: t in s.txns && Advance(s, t) == Went(s'))
    || (exists t :: Active(s, t) && s' == LetGo(s, t, Finished(Aborted)))
  }

  /** Only `t` moves, with its own request, and closer to its end. */
  ghost predicate Moves(s: State, t: TxnId, s': State)
    requires t in s.txns
  {
    && t in s'.txns && s'.txns == s.txns[t := s'.txns[t]] && s'.txns[t].request == s.txns[t].request
    && Remaining(s'.txns[t].pc) < Remaining(s.txns[t].pc)
  }

  lemma AdvanceMoves(s: State, t: TxnId)
    requires t in s.txns && Advance(s, t).Went?
    ensures Moves(s, t, Advance(s, t).next)
  {
    var pc := s.txns[t].pc;
    if pc.CheckPaid? || pc.ReadRows? || pc.HaveRows? || pc.ReadyPayouts? {
      ShareOutMoves(s, t);
    } else if pc.EventOnly? || pc.Orphan? || pc.ReadyPay? || pc.HaveEvent? || pc.HaveOrder? {
      WebhookMoves(s, t);
    } else if pc.Start? {
      StartMoves(s, t);
    } else {
      PoolMoves(s, t);
    }
    hide Advance, Moves;
  }

  lemma StartMoves(s: State, t: TxnId)
    requires t in s.txns && s.txns[t].pc.Start? && AdvanceStart(s, t).Went?
    ensures Moves(s, t, AdvanceStart(s, t).next)
  {
  }

  lemma PoolMoves(s: State, t: TxnId)
    requires t in s.txns && Advance(s, t).Went?
    requires var pc := s.txns[t].pc; pc.WantPool? || pc.HavePool? || pc.WantKey? || pc.Ready? || pc.Reread? || pc.WantOrderPool? || pc.ReadyExpire?
    ensures Moves(s, t, Advance(s, t).next)
  {
    hide OrderWritten, ContributionWritten, ClosingWritten, ExpiryWritten;
  }

  lemma WebhookMoves(s: State, t: TxnId)
    requires t in s.txns && Advance(s, t).Went?
    requires var pc := s.txns[t].pc; pc.EventOnly? || pc.Orphan? || pc.ReadyPay? || pc.HaveEvent? || pc.HaveOrder?
    ensures Moves(s, t, Advance(s, t).next)
  {
    hide PaymentWritten;
  }

  lemma ShareOutMoves(s: State, t: TxnId)
    requires t in s.txns && AdvanceShareOut(s, t).Went?
    ensures Moves(s, t, AdvanceShareOut(s, t).next)
  {
    hide Ordered, PayoutsFor, Revenue;
  }

  lemma WorkDrops(s: State, s': State, t: TxnId)
    requires t in s.txns && Moves(s, t, s')
    ensures Work(s') < Work(s)
  {
    TotalWrite(Shares(s.txns), t, Remaining(s'.txns[t].pc));
    assert Shares(s'.txns) == Shares(s.txns)[t := Remaining(s'.txns[t].pc)];
  }

  lemma DrainsWork(s: State, s': State)
    requires Drains(s, s')
    ensures Work(s') < Work(s)
  {
    hide Advance, Work;
    if t :| t in s.txns && Advance(s, t) == Went(s') {
      AdvanceMoves(s, t);
      WorkDrops(s, s', t);
    } else {
      var t :| Active(s, t) && s' == LetGo(s, t, Finished(Aborted));
      WorkDrops(s, s', t);
    }
  }

  lemma WorkNonNegative(s: State)
    ensures 0 <= Work(s)
  {
    TotalNonNegative(Shares(s.txns));
  }

  /** Once no new request arrives, a run is no longer than the work left at that point, and it can
      go on exactly as long as some request has not ended. */
  lemma {:induction false} EveryRequestEnds(trace: seq<State>, n: nat, m: nat)
    requires Run(trace) && n <= m < |trace|
    requires forall i :: n <= i < m ==> Drains(trace[i], trace[i + 1])
    ensures (m - n) + Work(trace[m]) <= Work(trace[n]) && 0 <= Work(trace[m])
    ensures (exists t :: Active(trace[m], t)) <==> (exists t :: t in trace[m].txns && Advance(trace[m], t).Went?)
  {
    hide Advance, Work, Inv, Drains, Next;
    WorkNonNegative(trace[m]);
    if n < m {
      EveryRequestEnds(trace, n, m - 1);
      DrainsWork(trace[m - 1], trace[m]);
    }
    RunsKeep(trace, m);
    if t :| Active(trace[m], t) {
      var u := SomebodySteps(trace[m], t);
    }
    if t :| t in trace[m].txns && Advance(trace[m], t).Went? {
      AdvanceMoves(trace[m], t);
      assert Active(trace[m], t);
    }
  }
}
