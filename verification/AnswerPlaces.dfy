/** Every answer has a place in the serial order, with one exception that is named exactly: also the
    answers of requests that wrote nothing, which module Serializability leaves out. */
module AnswerPlaces {
  import opened Common
  import opened PayoutSplit
  import opened Ledger
  import opened Transactions
  import opened SerialOrder
  import opened Serializability
  import opened Progress
  import opened Answers

  /** The exception: an order refused for its pool or its stock although an order under its key is
      committed by then. */
  ghost predicate RefusedThoughPlaced(t: Tables, r: Request, o: Outcome) {
    r.PlaceOrder? && KeyTaken(t, r) && (o == NoStock || o == PoolIsClosed || o == NoSuchPool)
  }

  // ---------------------------------------------------------------------------------------------
  // At the moment of the answer
  // ---------------------------------------------------------------------------------------------

  /** The next step of `t` answers with `o`, having written nothing. */
  ghost predicate Ends(s: State, t: TxnId, o: Outcome) {
    && t in s.txns && Advance(s, t).Went? && t in Advance(s, t).next.txns
    && Advance(s, t).next.txns[t].pc == Finished(o) && !Writes(o)
  }

  lemma OrderAnswered(t: Tables, r: Request, row: Pool)
    requires r.PlaceOrder? && RowIs(t, r.pid, row)
    ensures !row.open ==> (Serve(t, r).outcome == PoolIsClosed <==> !KeyTaken(t, r))
    ensures row.open && row.available < r.qty ==> (Serve(t, r).outcome == NoStock <==> !KeyTaken(t, r))
  {
  }

  lemma PoolAnswered(s: State, t: TxnId, o: Outcome)
    requires Inv(s) && Ends(s, t, o) && (s.txns[t].pc.WantPool? || s.txns[t].pc.HavePool?)
    ensures Serve(s.tables, s.txns[t].request).outcome == o <==> !RefusedThoughPlaced(s.tables, s.txns[t].request, o)
  {
    var r, pc := s.txns[t].request, s.txns[t].pc;
    assert Fits(s.tables, r, pc);
    hide Inv, Ordered, PayoutsFor, Revenue;
    if r.PlaceOrder? && pc.HavePool? {
      OrderAnswered(s.tables, r, pc.row);
      hide Serve;
    }
  }

  lemma OrderRowAnswered(s: State, t: TxnId, o: Outcome)
    requires Inv(s) && Ends(s, t, o) && (s.txns[t].pc.Start? || s.txns[t].pc.Reread? || s.txns[t].pc.HaveOrder?)
    ensures Serve(s.tables, s.txns[t].request).outcome == o && !RefusedThoughPlaced(s.tables, s.txns[t].request, o)
  {
    assert Fits(s.tables, s.txns[t].request, s.txns[t].pc);
    hide Inv, EndFits;
    if s.txns[t].pc.Start? {
      StartAnswered(s, t, o);
      hide Advance, Serve, Fits;
    }
  }

  lemma StartAnswered(s: State, t: TxnId, o: Outcome)
    requires Ends(s, t, o) && s.txns[t].pc.Start?
    ensures Serve(s.tables, s.txns[t].request).outcome == o && !RefusedThoughPlaced(s.tables, s.txns[t].request, o)
  {
    assert Advance(s, t) == AdvanceStart(s, t);
    hide Advance, Ordered, PayoutsFor, Revenue;
  }

  lemma ShareOutAnswered(s: State, t: TxnId, o: Outcome)
    requires Inv(s) && Ends(s, t, o) && (s.txns[t].pc.CheckPaid? || s.txns[t].pc.ReadRows? || s.txns[t].pc.HaveRows?)
    ensures Serve(s.tables, s.txns[t].request).outcome == o && !RefusedThoughPlaced(s.tables, s.txns[t].request, o)
  {
    assert Fits(s.tables, s.txns[t].request, s.txns[t].pc);
    assert Advance(s, t) == AdvanceShareOut(s, t);
    var r := s.txns[t].request;
    assert r.Distribute? && Serve(s.tables, r) == ServeDistribute(s.tables, r);
    hide Inv, EndFits, Ordered, PayoutsFor, Revenue, Advance, Serve;
  }

  /** The last steps of a write end with the write. */
  lemma WritersWrite(s: State, t: TxnId)
    requires Inv(s) && t in s.txns && Advance(s, t).Went? && t in Advance(s, t).next.txns
    requires var pc := s.txns[t].pc;
             pc.Ready? || pc.ReadyExpire? || pc.EventOnly? || pc.Orphan? || pc.ReadyPay? || pc.ReadyPayouts?
    ensures var pc := Advance(s, t).next.txns[t].pc; pc.Finished? && Writes(pc.outcome)
  {
    FitsNow(s, t);
    if s.txns[t].pc.ReadyPay? {
      ReadyPayKeeps(s, t);
      hide Inv, Keeps, Fits, PaymentWritten;
    } else if s.txns[t].pc.ReadyPayouts? {
      ReadyPayoutsKeeps(s, t);
      hide Inv, Keeps, Ordered, PayoutsFor, Revenue;
    } else {
      OtherWritersWrite(s, t);
      hide Inv, Fits, Advance;
    }
  }

  lemma OtherWritersWrite(s: State, t: TxnId)
    requires t in s.txns && Fits(s.tables, s.txns[t].request, s.txns[t].pc) && Advance(s, t).Went?
    requires var pc := s.txns[t].pc; pc.Ready? || pc.ReadyExpire? || pc.EventOnly? || pc.Orphan?
    ensures t in Advance(s, t).next.txns
    ensures var pc := Advance(s, t).next.txns[t].pc; pc.Finished? && Writes(pc.outcome)
  {
    hide OrderWritten, ContributionWritten, ClosingWritten, ExpiryWritten;
  }

  /** The other steps that can end a request are these. */
  lemma WhoAnswers(s: State, t: TxnId, o: Outcome)
    requires Inv(s) && Ends(s, t, o)
    ensures var pc := s.txns[t].pc;
            pc.Start? || pc.Reread? || pc.HaveOrder? || pc.WantPool? || pc.HavePool? || pc.CheckPaid? || pc.ReadRows? || pc.HaveRows?
  {
    var pc := s.txns[t].pc;
    if pc.Ready? || pc.ReadyExpire? || pc.EventOnly? || pc.Orphan? || pc.ReadyPay? || pc.ReadyPayouts? {
      WritersWrite(s, t);
      hide Advance;
    }
    hide Inv;
  }

  /** An answer without a write is the one that serving the request at that moment would give, if
      and only if it is not the exception. */
  lemma AnsweredOnTheSpot(s: State, t: TxnId, o: Outcome)
    requires Inv(s) && Ends(s, t, o)
    ensures Serve(s.tables, s.txns[t].request).outcome == o <==> !RefusedThoughPlaced(s.tables, s.txns[t].request, o)
  {
    WhoAnswers(s, t, o);
    var pc := s.txns[t].pc;
    hide *;
    if pc.WantPool? || pc.HavePool? {
      PoolAnswered(s, t, o);
    } else if pc.Start? || pc.Reread? || pc.HaveOrder? {
      OrderRowAnswered(s, t, o);
    } else {
      ShareOutAnswered(s, t, o);
    }
  }

  // ---------------------------------------------------------------------------------------------
  // In the serial order
  // ---------------------------------------------------------------------------------------------

  /** No effect that is entered before position `k` and still to be committed concerns `r`. */
  ghost predicate NoClash(s: State, k: nat, r: Request) {
    forall u :: u in s.txns && Place(s.txns[u].pc).Some? && Place(s.txns[u].pc).value < k ==> !Interferes(r, PatchOf(s.txns[u]))
  }

  /** Served at position `k` of the serial order, `r` would be answered `x`; the keys taken there are
      `keys`. */
  ghost predicate Stands(s: State, k: nat, r: Request, x: Outcome, keys: map<(BuyerId, string), OrderId>) {
    && k <= |s.history| && NoClash(s, k, r)
    && Serve(Replay(s.history[..k]), r).outcome == x && Replay(s.history[..k]).keyIndex == keys
  }

  lemma PrefixStands(s: State, s': State, k: nat, r: Request, x: Outcome, keys: map<(BuyerId, string), OrderId>)
    requires Stands(s, k, r, x, keys) && NoClash(s', k, r)
    requires k <= |s'.history| && s'.history[..k] == s.history[..k]
    ensures Stands(s', k, r, x, keys)
  {
  }

  /** Confirming an early entry before position `k` puts an effect there that `r` does not notice. */
  lemma FlipStands(s: State, s': State, t: TxnId, k: nat, r: Request, x: Outcome, keys: map<(BuyerId, string), OrderId>)
    requires Stands(s, k, r, x, keys) && NoClash(s', k, r)
    requires t in s.txns && Place(s.txns[t].pc).Some? && EarlyEntry(s, t)
    requires s'.history == Flipped(s.history, Place(s.txns[t].pc).value)
    ensures Stands(s', k, r, x, keys)
  {
    var at, p := Place(s.txns[t].pc).value, PatchOf(s.txns[t]);
    FlipPrefix(s.history, at, p, k);
    if at < k {
      Commute(Replay(s.history[..k]), p, r);
    }
    hide Serve, PatchOf;
  }

  lemma ClashStaysAway(s: State, s': State, t: TxnId, k: nat, r: Request)
    requires NoClash(s, k, r) && k <= |s.history| && t in s'.txns
    requires s'.txns == s.txns[t := s'.txns[t]]
    requires Place(s'.txns[t].pc).Some? ==> Place(s'.txns[t].pc).value >= |s.history|
    ensures NoClash(s', k, r)
  {
    hide PatchOf;
  }

  lemma AdvanceStands(s: State, t: TxnId, k: nat, r: Request, x: Outcome, keys: map<(BuyerId, string), OrderId>)
    requires EarlyEntries(s) && t in s.txns && Advance(s, t).Went? && Stands(s, k, r, x, keys)
    ensures Stands(Advance(s, t).next, k, r, x, keys)
  {
    var s' := Advance(s, t).next;
    assert k <= |s.history| && NoClash(s, k, r);
    AdvanceMoves(s, t);
    AdvanceHistory(s, t);
    hide Advance, Stands, NoClash, EarlyEntry, PatchOf;
    ClashStaysAway(s, s', t, k, r);
    HistoryStands(s, s', t, k, r, x, keys);
  }

  lemma HistoryStands(s: State, s': State, t: TxnId, k: nat, r: Request, x: Outcome, keys: map<(BuyerId, string), OrderId>)
    requires Stands(s, k, r, x, keys) && NoClash(s', k, r) && k <= |s.history|
    requires t in s.txns && (Place(s.txns[t].pc).Some? ==> EarlyEntry(s, t))
    requires var at := Place(s.txns[t].pc);
             || s'.history == s.history
             || (|s.history| < |s'.history| && s'.history[..|s.history|] == s.history)
             || (at.Some? && at.value < |s.history| && s'.history == Flipped(s.history, at.value))
    ensures Stands(s', k, r, x, keys)
  {
    hide Stands, NoClash, EarlyEntry;
    var at := Place(s.txns[t].pc);
    if at.Some? && at.value < |s.history| && s'.history == Flipped(s.history, at.value) {
      FlipStands(s, s', t, k, r, x, keys);
    } else {
      assert s'.history[..|s.history|][..k] == s.history[..k];
      PrefixStands(s, s', k, r, x, keys);
    }
  }

  lemma QuietStepStands(s: State, s': State, t: TxnId, k: nat, r: Request, x: Outcome, keys: map<(BuyerId, string), OrderId>)
    requires Stands(s, k, r, x, keys) && s'.history == s.history && t in s'.txns && s'.txns == s.txns[t := s'.txns[t]]
    requires Place(s'.txns[t].pc) == None
    ensures Stands(s', k, r, x, keys)
  {
    ClashStaysAway(s, s', t, k, r);
    hide NoClash;
    PrefixStands(s, s', k, r, x, keys);
  }

  lemma StepStands(s: State, s': State, k: nat, r: Request, x: Outcome, keys: map<(BuyerId, string), OrderId>)
    requires EarlyEntries(s) && Next(s, s') && Stands(s, k, r, x, keys)
    ensures Stands(s', k, r, x, keys)
  {
    hide EarlyEntries, Advance, Stands;
    if t, q :| CanBegin(s, t, q) && s' == Begun(s, t, q) {
      QuietStepStands(s, s', t, k, r, x, keys);
    } else if t :| t in s.txns && Advance(s, t) == Went(s') {
      AdvanceStands(s, t, k, r, x, keys);
    } else {
      var t :| Active(s, t) && s' == LetGo(s, t, Finished(Aborted));
      QuietStepStands(s, s', t, k, r, x, keys);
    }
  }

  lemma KeptEntries(s: State)
    requires Inv(s)
    ensures EarlyEntries(s)
  {
  }

  lemma {:induction false} AnswerStands(trace: seq<State>, m: nat, n: nat, k: nat, r: Request, x: Outcome, keys: map<(BuyerId, string), OrderId>)
    requires Run(trace) && m <= n < |trace| && Stands(trace[m], k, r, x, keys)
    ensures Stands(trace[n], k, r, x, keys)
  {
    hide Inv, Next, Stands;
    if m < n {
      AnswerStands(trace, m, n - 1, k, r, x, keys);
      RunsKeep(trace, n - 1);
      assert EarlyEntries(trace[n - 1]) by { KeptEntries(trace[n - 1]); }
      StepStands(trace[n - 1], trace[n], k, r, x, keys);
    }
  }

  /** Nobody has entered an effect early that concerns a request being answered without a write: it
      holds the same lock, or has seen the effect's outcome committed. */
  lemma AnswerClashesNot(s: State, t: TxnId, o: Outcome, u: TxnId)
    requires Inv(s) && Ends(s, t, o) && u in s.txns && u != t && Place(s.txns[u].pc).Some?
    ensures !Interferes(s.txns[t].request, PatchOf(s.txns[u]))
  {
    FitsNow(s, t);
    FitsNow(s, u);
    Exclusive(s, t, u);
    WhoAnswers(s, t, o);
    hide Inv;
    if s.txns[u].pc.Orphan? {
      EventClashesNot(s, t, o, s.txns[u]);
    } else {
      PayoutClashesNot(s, t, o, s.txns[u]);
    }
    hide Fits, Ends, PatchOf, HoldsOf;
  }

  lemma EventClashesNot(s: State, t: TxnId, o: Outcome, x: Txn)
    requires Ends(s, t, o) && Fits(s.tables, s.txns[t].request, s.txns[t].pc) && Fits(s.tables, x.request, x.pc) && x.pc.Orphan?
    requires HoldsOf(s.txns[t]) !! HoldsOf(x)
    requires var pc := s.txns[t].pc; pc.Start? || pc.Reread? || pc.HaveOrder? || pc.WantPool? || pc.HavePool? || pc.CheckPaid? || pc.ReadRows? || pc.HaveRows?
    ensures !Interferes(s.txns[t].request, PatchOf(x))
  {
    assert EventEntry(x.request.event) in HoldsOf(x);
    hide EndFits, Ordered, PayoutsFor, Revenue;
    if s.txns[t].pc.Start? {
      assert Advance(s, t) == AdvanceStart(s, t);
      hide Advance;
    }
  }

  lemma PayoutClashesNot(s: State, t: TxnId, o: Outcome, x: Txn)
    requires Ends(s, t, o) && Fits(s.tables, s.txns[t].request, s.txns[t].pc) && Fits(s.tables, x.request, x.pc) && x.pc.ReadyPayouts?
    requires HoldsOf(s.txns[t]) !! HoldsOf(x)
    requires var pc := s.txns[t].pc; pc.Start? || pc.Reread? || pc.HaveOrder? || pc.WantPool? || pc.HavePool? || pc.CheckPaid? || pc.ReadRows? || pc.HaveRows?
    ensures !Interferes(s.txns[t].request, PatchOf(x))
  {
    if s.txns[t].request.Distribute? {
      ShareOutClashesNot(s, t, o, x);
      hide Advance, Fits;
    }
    hide Ends, EndFits;
  }

  /** A share-out answered without a write has missed its pool, or holds the lock on it. */
  lemma ShareOutClashesNot(s: State, t: TxnId, o: Outcome, x: Txn)
    requires Ends(s, t, o) && s.txns[t].request.Distribute? && Fits(s.tables, x.request, x.pc) && x.pc.ReadyPayouts?
    requires HoldsOf(s.txns[t]) !! HoldsOf(x)
    requires var pc := s.txns[t].pc; pc.Start? || pc.WantPool? || pc.HavePool? || pc.CheckPaid? || pc.ReadRows? || pc.HaveRows? || pc.Reread? || pc.HaveOrder?
    requires Fits(s.tables, s.txns[t].request, s.txns[t].pc)
    ensures s.txns[t].request.pid != PidOf(x.request) && Place(x.pc).Some?
  {
    var pc, pid := s.txns[t].pc, s.txns[t].request.pid;
    assert PoolLock(x.request.pid) in HoldsOf(x) && x.request.Distribute? && x.request.pid in s.tables.pools;
    if !pc.Start? && !pc.WantPool? {
      assert PoolLock(pid) in HoldsOf(s.txns[t]);
      hide Advance;
    }
    hide EndFits, Ordered, PayoutsFor, Revenue;
  }

  // ---------------------------------------------------------------------------------------------
  // Over whole runs
  // ---------------------------------------------------------------------------------------------

  lemma StepEnds(s: State, s': State, t: TxnId, o: Outcome)
    requires Next(s, s') && t in s'.txns && s'.txns[t].pc == Finished(o) && !Writes(o) && o != Aborted
    ensures (t in s.txns && s.txns[t].pc == Finished(o)) || (Ends(s, t, o) && Advance(s, t).next == s')
  {
    hide Advance;
    if u :| u in s.txns && Advance(s, u) == Went(s') {
      AdvanceMoves(s, u);
    }
  }

  /** The step at which a request was answered. */
  lemma {:induction false} AnsweredAt(trace: seq<State>, n: nat, t: TxnId, o: Outcome) returns (i: nat)
    requires Run(trace) && n < |trace| && t in trace[n].txns && trace[n].txns[t].pc == Finished(o) && !Writes(o) && o != Aborted
    ensures i < n && Ends(trace[i], t, o) && Advance(trace[i], t).next == trace[i + 1]
  {
    hide Inv, Next, Ends, Advance;
    if n > 0 {
      StepEnds(trace[n - 1], trace[n], t, o);
      if t in trace[n - 1].txns && trace[n - 1].txns[t].pc == Finished(o) {
        i := AnsweredAt(trace, n - 1, t, o);
      } else {
        i := n - 1;
      }
    }
  }

  /** Answering without a write leaves the serial order alone. */
  lemma EndsQuietly(s: State, t: TxnId, o: Outcome)
    requires Inv(s) && Ends(s, t, o)
    ensures Advance(s, t).next.history == s.history
  {
    WhoAnswers(s, t, o);
    hide Inv, Ordered, PayoutsFor, Revenue;
    if s.txns[t].pc.Start? {
      assert Advance(s, t) == AdvanceStart(s, t);
      hide Advance;
    }
  }

  lemma StandsAtOnce(s: State, s': State, t: TxnId, o: Outcome)
    requires Inv(s) && Ends(s, t, o) && s' == Advance(s, t).next
    ensures s'.history == s.history
    ensures Stands(s', |s.history|, s.txns[t].request, Serve(s.tables, s.txns[t].request).outcome, s.tables.keyIndex)
  {
    EndsQuietly(s, t, o);
    AdvanceMoves(s, t);
    assert s.tables == Replay(s.history) && s.history[..|s.history|] == s.history;
    forall u | u in s'.txns && Place(s'.txns[u].pc).Some?
      ensures !Interferes(s.txns[t].request, PatchOf(s'.txns[u]))
    {
      assert u != t;
      AnswerClashesNot(s, t, o, u);
    }
    hide Inv, Advance, Serve, Replay, PatchOf;
  }

  /** The committed entries among the first `k` are the first of the committed entries. */
  lemma {:induction false} CommittedPrefix(h: seq<Entry>, k: nat)
    requires k <= |h|
    ensures |Committed(h[..k])| <= |Committed(h)| && Committed(h)[..|Committed(h[..k])|] == Committed(h[..k])
  {
    if k == |h| {
      assert h[..k] == h;
    } else {
      var front := h[..|h| - 1];
      CommittedPrefix(front, k);
      assert front[..k] == h[..k];
      assert Committed(h)[..|Committed(front)|] == Committed(front);
    }
  }

  /** Where the j-th committed entry sits, told by how many are committed up to there. */
  lemma CommittedSide(h: seq<Entry>, k: nat, j: nat) returns (q: nat)
    requires k <= |h| && j < |Committed(h)|
    ensures q < |h| && h[q].done && h[q] == Committed(h)[j] && (j < |Committed(h[..k])| <==> q < k)
  {
    q := CommittedAt(h, j);
    if q < k {
      assert h[..k][..q + 1] == h[..q + 1] && h[..q + 1][..q] == h[..q];
      CommittedPrefix(h[..k], q + 1);
    } else {
      assert h[..q][..k] == h[..k];
      CommittedPrefix(h[..q], k);
    }
  }

  /** An entry is before the position exactly if its transaction was in the serial order when the
      answer was given. */
  lemma SideInTime(s: State, s': State, j: nat, q: nat)
    requires HistoryMatches(s) && HistoryMatches(s') && Prolongs(s, s')
    requires q < |s'.history| && s'.history[q].done
    ensures q < |s.history| ==> s'.history[q].txn in s.txns
    ensures |s.history| <= q ==> forall o :: !CommittedWriter(s, s'.history[q].txn, o)
  {
    if q < |s.history| {
      KnownEntry(s, q);
    }
  }

  /** Every answer that came without a write has its place in the serial order of the committed
      requests, in real time: served after the first `k` of them, the request is answered just so and
      changes nothing, if and only if the answer is not the exception. The first `k` had all arrived
      when the answer was given, in state `i`; none of the others had committed by then. */
  lemma EveryAnswerHasAPlace(trace: seq<State>, n: nat, t: TxnId, o: Outcome) returns (i: nat, k: nat)
    requires Run(trace) && n < |trace| && t in trace[n].txns && trace[n].txns[t].pc == Finished(o) && !Writes(o) && o != Aborted
    ensures i < n && Active(trace[i], t) && t in trace[i + 1].txns && trace[i + 1].txns[t].pc == Finished(o)
    ensures k <= |Committed(trace[n].history)|
    ensures var es, r := Committed(trace[n].history), trace[n].txns[t].request; var served := ServeAll(EMPTY_TABLES, Requests(es[..k]));
            && (Serve(served, r).outcome == o <==> !RefusedThoughPlaced(served, r, o))
            && (Serve(served, r).outcome == o ==> Serve(served, r).tables == served)
    ensures var es := Committed(trace[n].history);
            && (forall j :: 0 <= j < k ==> es[j].txn in trace[i].txns)
            && (forall j, p :: k <= j < |es| ==> !CommittedWriter(trace[i], es[j].txn, p))
  {
    i := AnsweredAt(trace, n, t, o);
    var h, kh := trace[n].history, |trace[i].history|;
    AnswerIsPlaced(trace, i, n, t, o);
    k := |Committed(h[..kh])|;
    CommittedPrefix(h, kh);
    ReplayIsServing(h[..kh]);
    OnlyWritersWrite(Replay(h[..kh]), trace[n].txns[t].request);
    forall j | 0 <= j < |Committed(h)|
      ensures j < k ==> Committed(h)[j].txn in trace[i].txns
      ensures k <= j ==> forall p :: !CommittedWriter(trace[i], Committed(h)[j].txn, p)
    {
      PlacedInTime(trace, i, n, j);
    }
    hide Run, Serve, Ends, Committed, CommittedWriter, RefusedThoughPlaced;
  }

  lemma PlacedInTime(trace: seq<State>, i: nat, n: nat, j: nat)
    requires Run(trace) && i <= n < |trace| && j < |Committed(trace[n].history)| && |trace[i].history| <= |trace[n].history|
    ensures var h := trace[n].history; var k := |Committed(h[..|trace[i].history|])|;
            && (j < k ==> Committed(h)[j].txn in trace[i].txns)
            && (k <= j ==> forall p :: !CommittedWriter(trace[i], Committed(h)[j].txn, p))
  {
    var q := CommittedSide(trace[n].history, |trace[i].history|, j);
    RunsKeep(trace, i);
    RunsKeep(trace, n);
    RunProlongs(trace, i, n);
    SideInTime(trace[i], trace[n], j, q);
    hide Run, Committed, CommittedWriter, HistoryMatches;
  }

  lemma OnlyWritersWrite(t: Tables, r: Request)
    ensures !Writes(Serve(t, r).outcome) ==> Serve(t, r).tables == t
  {
    hide Ordered, PayoutsFor, Revenue;
  }

  lemma AnswerIsPlaced(trace: seq<State>, i: nat, n: nat, t: TxnId, o: Outcome)
    requires Run(trace) && i < n < |trace| && Ends(trace[i], t, o) && Advance(trace[i], t).next == trace[i + 1]
    ensures Active(trace[i], t) && t in trace[i + 1].txns && trace[i + 1].txns[t].pc == Finished(o)
    ensures t in trace[n].txns && |trace[i].history| <= |trace[n].history|
    ensures var r, served := trace[n].txns[t].request, Replay(trace[n].history[..|trace[i].history|]);
            Serve(served, r).outcome == o <==> !RefusedThoughPlaced(served, r, o)
  {
    var s, r := trace[i], trace[i].txns[t].request;
    RunsKeep(trace, i);
    StandsAtOnce(s, trace[i + 1], t, o);
    AnsweredOnTheSpot(s, t, o);
    AnswerStands(trace, i + 1, n, |s.history|, r, Serve(s.tables, r).outcome, s.tables.keyIndex);
    SameRequest(trace, i, n, t);
    hide Run, Inv, Serve, Replay, NoClash, Advance;
  }
}
