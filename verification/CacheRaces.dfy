/** The pool cache when calls overlap: commits, deletes, cache lookups, database reads and cache sets
    are single steps, in any order, with any delays; a call may stop anywhere. */
module CacheRaces {
  import opened Common
  import opened Ledger
  import opened PoolCache

  type CallId = nat

  /** The committed tables, with the pools by age, after some number of commits. */
  datatype Version = Version(tables: Tables, newest: seq<PoolId>)

  /** A commit: what was asked for and where a pool it creates goes among the others, the keys its
      service deletes afterwards, and at which step it did, if it has. */
  datatype Commit = Commit(request: Request, position: nat, deletes: set<CacheKey>, at: int, deleted: Option<nat>)

  /** A value read from the database: which version it was read from, and when. */
  datatype Reading = Reading(value: Value, version: nat, at: int)

  /** A cached reading: when and at which step it was set. */
  datatype Cached = Cached(reading: Reading, setAt: int, step: nat)

  datatype Call =
    | Deleting(commit: nat)                       // writer: committed, delete next
    | Missed(key: CacheKey)                       // reader: nothing cached, database read next
    | Filling(key: CacheKey, reading: Reading)    // reader: cache set next
    | Answered(key: CacheKey, reading: Reading, setAt: int, at: int)
    | Done

  datatype State = State(versions: seq<Version>, commits: seq<Commit>, cache: map<CacheKey, Cached>,
                         calls: map<CallId, Call>, clock: int, step: nat)

  const INITIAL := State([Version(EMPTY_TABLES, [])], [], map[], map[], 0, 0)

  /** What can happen next. `position` is where a new pool's created_at puts it among the others:
      it need not be the newest by the time it is committed. `tables` is what is committed: its pools
      are those of serving the request at that moment, its other tables need not be, since a share-out
      and an orphan webhook answer as of an earlier moment. */
  datatype Move =
    | Tick(seconds: nat)
    | Write(call: CallId, request: Request, position: nat, tables: Tables)
    | Delete(call: CallId)
    | Ask(call: CallId, key: CacheKey)
    | Read(call: CallId)
    | Fill(call: CallId)
    | Lose(keys: set<CacheKey>)

  function Latest(s: State): Version {
    if s.versions == [] then Version(EMPTY_TABLES, []) else s.versions[|s.versions| - 1]
  }

  function Look(v: Version, key: CacheKey): Value {
    Uncached(v.tables.pools, v.newest, key)
  }

  /** The keys that the service of a request deletes after committing with outcome `o`. */
  function DeletedOn(o: Outcome, t: Tables, r: Request): set<CacheKey> {
    if !Invalidates(o) then {}
    else if r.CreatePool? then Invalidated(None)
    else if r.ExpireOrder? && (r.oid !in t.orders || t.orders[r.oid].pool !in t.pools) then {}
    else Invalidated(WrittenPool(t, r))
  }

  ghost function DeletedAfter(t: Tables, r: Request): set<CacheKey> {
    DeletedOn(Serve(t, r).outcome, t, r)
  }

  function Inserted(newest: seq<PoolId>, position: nat, pid: PoolId): seq<PoolId> {
    if position <= |newest| then newest[..position] + [pid] + newest[position..] else newest + [pid]
  }

  ghost function After(v: Version, r: Request, position: nat, tables: Tables): Version {
    Version(tables, if r.CreatePool? && Serve(v.tables, r).outcome == PoolCreated then Inserted(v.newest, position, r.pid) else v.newest)
  }

  ghost predicate Can(ttl: nat, s: State, m: Move) {
    match m
    case Tick(_) => true
    case Write(call, r, _, tables) => call !in s.calls && tables.pools == Serve(Latest(s).tables, r).tables.pools
    case Delete(call) => call in s.calls && s.calls[call].Deleting?
    case Ask(call, _) => call !in s.calls
    case Read(call) => call in s.calls && s.calls[call].Missed?
    case Fill(call) => call in s.calls && s.calls[call].Filling?
    case Lose(_) => true
  }

  ghost function Do(ttl: nat, s: State, m: Move): State {
    var s := s.(step := s.step + 1);
    match m
    case Tick(seconds) => s.(clock := s.clock + seconds)
    case Write(call, r, position, tables) =>
      s.(versions := s.versions + [After(Latest(s), r, position, tables)],
         commits := s.commits + [Commit(r, position, DeletedAfter(Latest(s).tables, r), s.clock, None)],
         calls := s.calls[call := Deleting(|s.commits|)])
    case Delete(call) => if call in s.calls && s.calls[call].Deleting? then DoDelete(s, call, s.calls[call].commit) else s
    case Ask(call, key) =>
      if key in s.cache && s.clock < s.cache[key].setAt + ttl
      then s.(calls := s.calls[call := Answered(key, s.cache[key].reading, s.cache[key].setAt, s.clock)])
      else s.(calls := s.calls[call := Missed(key)])
    case Read(call) => if call in s.calls && s.calls[call].Missed? then DoRead(s, call, s.calls[call].key) else s
    case Fill(call) => if call in s.calls && s.calls[call].Filling? then DoFill(s, call, s.calls[call].key, s.calls[call].reading) else s
    case Lose(keys) => s.(cache := s.cache - keys)
  }

  function DoDelete(s: State, call: CallId, commit: nat): State {
    if commit < |s.commits| then
      s.(cache := s.cache - s.commits[commit].deletes,
         commits := s.commits[commit := s.commits[commit].(deleted := Some(s.step))],
         calls := s.calls[call := Done])
    else s
  }

  function DoRead(s: State, call: CallId, key: CacheKey): State {
    var value := Look(Latest(s), key);
    var reading := Reading(value, if s.versions == [] then 0 else |s.versions| - 1, s.clock);
    s.(calls := s.calls[call := if value == NotFound then Answered(key, reading, s.clock, s.clock) else Filling(key, reading)])
  }

  function DoFill(s: State, call: CallId, key: CacheKey, reading: Reading): State {
    s.(cache := s.cache[key := Cached(reading, s.clock, s.step)],
       calls := s.calls[call := Answered(key, reading, s.clock, s.clock)])
  }

  ghost predicate Next(ttl: nat, s: State, s': State) {
    exists m :: Can(ttl, s, m) && s' == Do(ttl, s, m)
  }

  ghost predicate Run(ttl: nat, trace: seq<State>) {
    && trace != [] && trace[0] == INITIAL
    && forall i :: 0 <= i < |trace| - 1 ==> Next(ttl, trace[i], trace[i + 1])
  }

  // ---------------------------------------------------------------------------------------------
  // The invariant
  // ---------------------------------------------------------------------------------------------

  /** Each commit deletes every key whose value it changes, unless there was nothing to cache. */
  ghost predicate DeletesCover(s: State) {
    && |s.versions| == |s.commits| + 1
    && forall i, key :: 0 <= i < |s.commits| && key !in s.commits[i].deletes ==>
         Look(s.versions[i + 1], key) == Look(s.versions[i], key) || Look(s.versions[i], key) == NotFound
  }

  /** Commits happened in the order of the clock. */
  ghost predicate CommitsInTime(s: State) {
    && (forall i :: 0 <= i < |s.commits| ==> s.commits[i].at <= s.clock)
    && forall i, j :: 0 <= i < j < |s.commits| ==> s.commits[i].at <= s.commits[j].at
  }

  /** Version `v` was the committed one at time `t`. */
  ghost predicate CurrentAt(s: State, v: nat, t: int) {
    && v <= |s.commits| && t <= s.clock
    && (v > 0 ==> s.commits[v - 1].at <= t)
    && (v < |s.commits| ==> t <= s.commits[v].at)
  }

  /** The reading is what the database held under the key when it was read. */
  ghost predicate Genuine(s: State, key: CacheKey, r: Reading) {
    r.version < |s.versions| && r.value == Look(s.versions[r.version], key) && CurrentAt(s, r.version, r.at)
  }

  /** Every commit after the cached reading that concerns the key either has its delete still to come,
      or had it before the reading was set. */
  ghost predicate Excused(s: State, key: CacheKey, c: Cached) {
    forall i :: c.reading.version <= i < |s.commits| && key in s.commits[i].deletes ==>
      s.commits[i].deleted.None? || s.commits[i].deleted.value < c.step
  }

  ghost predicate CacheFits(s: State) {
    forall key :: key in s.cache ==>
      var c := s.cache[key];
      && Genuine(s, key, c.reading) && c.reading.value != NotFound
      && c.reading.at <= c.setAt <= s.clock && c.step <= s.step && Excused(s, key, c)
  }

  ghost predicate CallFits(ttl: nat, s: State, c: Call) {
    match c
    case Deleting(i) => i < |s.commits|
    case Missed(_) => true
    case Filling(key, reading) => Genuine(s, key, reading) && reading.value != NotFound
    case Answered(key, reading, setAt, at) =>
      && Genuine(s, key, reading) && reading.at <= setAt <= at <= s.clock && (at < setAt + ttl || at == setAt)
    case Done => true
  }

  ghost predicate CallsFit(ttl: nat, s: State) {
    forall call :: call in s.calls ==> CallFits(ttl, s, s.calls[call])
  }

  ghost predicate DeletesPast(s: State) {
    forall i :: 0 <= i < |s.commits| && s.commits[i].deleted.Some? ==> s.commits[i].deleted.value <= s.step
  }

  ghost predicate Inv(ttl: nat, s: State) {
    DeletesCover(s) && CommitsInTime(s) && CacheFits(s) && CallsFit(ttl, s) && DeletesPast(s)
  }

  lemma InitialInv(ttl: nat)
    ensures Inv(ttl, INITIAL)
  {
  }

  /** A commit changes only values that its service deletes, or that nobody can have cached. */
  lemma CommitCovers(v: Version, r: Request, position: nat, tables: Tables, key: CacheKey)
    requires key !in DeletedAfter(v.tables, r) && tables.pools == Serve(v.tables, r).tables.pools
    ensures Look(After(v, r, position, tables), key) == Look(v, key) || Look(v, key) == NotFound
  {
    WritesOnePool(v.tables, r);
    var t := v.tables;
    if !Invalidates(Serve(t, r).outcome) {
      assert tables.pools == t.pools;
    } else if r.CreatePool? {
      EveryListingInvalidated(key, None);
    } else if r.ExpireOrder? && (r.oid !in t.orders || t.orders[r.oid].pool !in t.pools) {
      assert tables.pools == t.pools;
    } else {
      EveryListingInvalidated(key, WrittenPool(t, r));
    }
    hide Serve;
  }

  // ---------------------------------------------------------------------------------------------
  // Every step keeps it
  // ---------------------------------------------------------------------------------------------

  lemma GenuineStays(s: State, s': State, key: CacheKey, r: Reading)
    requires Genuine(s, key, r) && |s.versions| == |s.commits| + 1
    requires s.versions <= s'.versions && |s'.versions| == |s'.commits| + 1 && |s.commits| <= |s'.commits| && s.clock <= s'.clock
    requires forall i :: 0 <= i < |s.commits| ==> s'.commits[i].at == s.commits[i].at
    requires forall i :: |s.commits| <= i < |s'.commits| ==> s.clock <= s'.commits[i].at
    ensures Genuine(s', key, r)
  {
  }

  lemma TickKeeps(ttl: nat, s: State, seconds: nat)
    requires Inv(ttl, s)
    ensures Inv(ttl, Do(ttl, s, Tick(seconds)))
  {
    hide Look;
  }

  lemma WriteKeeps(ttl: nat, s: State, call: CallId, r: Request, position: nat, tables: Tables)
    requires Inv(ttl, s) && Can(ttl, s, Write(call, r, position, tables))
    ensures Inv(ttl, Do(ttl, s, Write(call, r, position, tables)))
  {
    var s' := Do(ttl, s, Write(call, r, position, tables));
    WriteKeepsCover(ttl, s, call, r, position, tables);
    assert |s'.versions| == |s'.commits| + 1;
    WriteKeepsCache(ttl, s, call, r, position, tables);
    WriteKeepsCalls(ttl, s, call, r, position, tables);
    hide DeletesCover, CacheFits, CallsFit, After, DeletedAfter;
  }

  lemma WriteKeepsCover(ttl: nat, s: State, call: CallId, r: Request, position: nat, tables: Tables)
    requires DeletesCover(s) && Can(ttl, s, Write(call, r, position, tables))
    ensures DeletesCover(Do(ttl, s, Write(call, r, position, tables)))
  {
    var s' := Do(ttl, s, Write(call, r, position, tables));
    hide Look, After, DeletedAfter;
    forall i, key | 0 <= i < |s'.commits| && key !in s'.commits[i].deletes
      ensures Look(s'.versions[i + 1], key) == Look(s'.versions[i], key) || Look(s'.versions[i], key) == NotFound
    {
      if i == |s.commits| {
        CommitCovers(Latest(s), r, position, tables, key);
      }
    }
  }

  lemma WriteKeepsCache(ttl: nat, s: State, call: CallId, r: Request, position: nat, tables: Tables)
    requires Inv(ttl, s)
    ensures CacheFits(Do(ttl, s, Write(call, r, position, tables)))
  {
    var s' := Do(ttl, s, Write(call, r, position, tables));
    assert |s.versions| == |s.commits| + 1 && s'.cache == s.cache;
    hide DeletesCover, CallsFit, After, DeletedAfter, Look, Genuine;
    forall key | key in s'.cache
      ensures Genuine(s', key, s'.cache[key].reading)
    {
      GenuineStays(s, s', key, s.cache[key].reading);
    }
  }

  lemma WriteKeepsCalls(ttl: nat, s: State, call: CallId, r: Request, position: nat, tables: Tables)
    requires Inv(ttl, s) && call !in s.calls
    ensures CallsFit(ttl, Do(ttl, s, Write(call, r, position, tables)))
  {
    var s' := Do(ttl, s, Write(call, r, position, tables));
    assert |s.versions| == |s.commits| + 1;
    hide DeletesCover, CacheFits, After, DeletedAfter, Look, Genuine;
    forall c | c in s'.calls
      ensures CallFits(ttl, s', s'.calls[c])
    {
      if c != call && (s.calls[c].Filling? || s.calls[c].Answered?) {
        GenuineStays(s, s', s.calls[c].key, s.calls[c].reading);
      }
    }
  }

  lemma DeleteKeeps(ttl: nat, s: State, call: CallId)
    requires Inv(ttl, s) && call in s.calls && s.calls[call].Deleting?
    ensures Inv(ttl, Do(ttl, s, Delete(call)))
  {
    var i := s.calls[call].commit;
    assert CallFits(ttl, s, s.calls[call]);
    hide Inv;
    var s' := s.(step := s.step + 1, cache := s.cache - s.commits[i].deletes, calls := s.calls[call := Done],
                 commits := s.commits[i := s.commits[i].(deleted := Some(s.step + 1))]);
    assert Do(ttl, s, Delete(call)) == s';
    hide Do, DoDelete;
    DeletedKeeps(ttl, s, s', i, call);
  }

  lemma DeletedKeeps(ttl: nat, s: State, s': State, i: nat, call: CallId)
    requires Inv(ttl, s) && i < |s.commits|
    requires s' == s.(step := s.step + 1, cache := s.cache - s.commits[i].deletes, calls := s.calls[call := Done],
                      commits := s.commits[i := s.commits[i].(deleted := Some(s.step + 1))])
    ensures Inv(ttl, s')
  {
    hide Look;
    assert DeletesCover(s');
    forall key, r: Reading
      ensures Genuine(s, key, r) ==> Genuine(s', key, r)
    {
      if Genuine(s, key, r) {
        GenuineStays(s, s', key, r);
      }
    }
    hide Genuine, DeletesCover;
  }

  lemma AskKeeps(ttl: nat, s: State, call: CallId, key: CacheKey)
    requires Inv(ttl, s) && call !in s.calls
    ensures Inv(ttl, Do(ttl, s, Ask(call, key)))
  {
    var s' := Do(ttl, s, Ask(call, key));
    assert DeletesCover(s') && CommitsInTime(s') && DeletesPast(s');
    GenuineSame(s, s');
    hide DeletesCover, CommitsInTime, DeletesPast, Genuine, Excused;
    assert CacheFits(s') by {
      ExcusedSame(s, s');
    }
    forall c | c in s'.calls
      ensures CallFits(ttl, s', s'.calls[c])
    {
      assert c != call ==> CallFits(ttl, s, s.calls[c]);
    }
    hide CacheFits, CallFits;
  }

  lemma GenuineSame(s: State, s': State)
    requires s'.versions == s.versions && s'.commits == s.commits && s'.clock == s.clock
    ensures forall key, r: Reading :: Genuine(s', key, r) == Genuine(s, key, r)
  {
    hide Look;
  }

  lemma ExcusedSame(s: State, s': State)
    requires s'.commits == s.commits
    ensures forall key, c: Cached :: Excused(s', key, c) == Excused(s, key, c)
  {
  }

  lemma ReadKeeps(ttl: nat, s: State, call: CallId)
    requires Inv(ttl, s) && call in s.calls && s.calls[call].Missed?
    ensures Inv(ttl, Do(ttl, s, Read(call)))
  {
    hide Look;
  }

  lemma FillKeeps(ttl: nat, s: State, call: CallId)
    requires Inv(ttl, s) && call in s.calls && s.calls[call].Filling?
    ensures Inv(ttl, Do(ttl, s, Fill(call)))
  {
    var s' := Do(ttl, s, Fill(call));
    assert CallFits(ttl, s, s.calls[call]);
    var key, reading := s.calls[call].key, s.calls[call].reading;
    assert s' == s.(step := s.step + 1, cache := s.cache[key := Cached(reading, s.clock, s.step + 1)],
                    calls := s.calls[call := Answered(key, reading, s.clock, s.clock)]);
    hide Do, DoFill;
    assert DeletesCover(s') && CommitsInTime(s') && DeletesPast(s');
    GenuineSame(s, s');
    FillExcused(s, s', key, Cached(reading, s.clock, s.step + 1));
    hide DeletesCover, CommitsInTime, DeletesPast, Excused;
    assert CacheFits(s') by {
      ExcusedSame(s, s');
      hide Look;
    }
    hide Genuine;
    forall c | c in s'.calls
      ensures CallFits(ttl, s', s'.calls[c])
    {
      assert c != call ==> CallFits(ttl, s, s.calls[c]);
    }
    hide CacheFits, CallFits;
  }

  lemma FillExcused(s: State, s': State, key: CacheKey, c: Cached)
    requires DeletesPast(s) && s'.commits == s.commits && s.step < c.step
    ensures Excused(s', key, c)
  {
  }

  lemma LoseKeeps(ttl: nat, s: State, keys: set<CacheKey>)
    requires Inv(ttl, s)
    ensures Inv(ttl, Do(ttl, s, Lose(keys)))
  {
    hide Look;
  }

  lemma NextKeeps(ttl: nat, s: State, s': State)
    requires Inv(ttl, s) && Next(ttl, s, s')
    ensures Inv(ttl, s')
  {
    var m :| Can(ttl, s, m) && s' == Do(ttl, s, m);
    hide Inv, Do;
    match m
    case Tick(seconds) => TickKeeps(ttl, s, seconds);
    case Write(call, r, position, tables) => WriteKeeps(ttl, s, call, r, position, tables);
    case Delete(call) => DeleteKeeps(ttl, s, call);
    case Ask(call, key) => AskKeeps(ttl, s, call, key);
    case Read(call) => ReadKeeps(ttl, s, call);
    case Fill(call) => FillKeeps(ttl, s, call);
    case Lose(keys) => LoseKeeps(ttl, s, keys);
  }

  lemma {:induction false} RunsKeep(ttl: nat, trace: seq<State>, n: nat)
    requires Run(ttl, trace) && n < |trace|
    ensures Inv(ttl, trace[n])
  {
    hide Inv, Next;
    if n == 0 {
      InitialInv(ttl);
    } else {
      RunsKeep(ttl, trace, n - 1);
      NextKeeps(ttl, trace[n - 1], trace[n]);
    }
  }

  /** A lookup is answered from the cache exactly if an entry is there and less than the time to live old;
      otherwise the call goes on to the database, and a missing pool is never cached. */
  lemma LookupMeaning(ttl: nat, s: State, call: CallId, key: CacheKey)
    ensures var asked := Do(ttl, s, Ask(call, key)).calls[call];
            && (key in s.cache && s.clock - s.cache[key].setAt < ttl
                ==> asked == Answered(key, s.cache[key].reading, s.cache[key].setAt, s.clock))
            && (!(key in s.cache && s.clock - s.cache[key].setAt < ttl) ==> asked == Missed(key))
    ensures call in s.calls && s.calls[call] == Missed(key) && s.versions != [] ==>
              var read, value := Do(ttl, s, Read(call)).calls[call], Look(Latest(s), key);
              if value == NotFound then read == Answered(key, Reading(value, |s.versions| - 1, s.clock), s.clock, s.clock)
              else read == Filling(key, Reading(value, |s.versions| - 1, s.clock))
  {
  }

  // ---------------------------------------------------------------------------------------------
  // What can be stale, and for how long
  // ---------------------------------------------------------------------------------------------

  /** The commit changed what is read under the key. */
  ghost predicate Changes(s: State, key: CacheKey, i: nat) {
    i + 1 < |s.versions| && Look(s.versions[i + 1], key) != Look(s.versions[i], key)
  }

  /** A value that has changed was changed by some commit, and the first to do so still found it. */
  lemma {:induction false} FirstChange(s: State, key: CacheKey, v: nat, w: nat) returns (i: nat)
    requires v <= w < |s.versions| && Look(s.versions[w], key) != Look(s.versions[v], key)
    ensures v <= i < w && Changes(s, key, i) && Look(s.versions[i], key) == Look(s.versions[v], key)
  {
    hide Look;
    if Look(s.versions[w - 1], key) == Look(s.versions[v], key) {
      i := w - 1;
    } else {
      i := FirstChange(s, key, v, w - 1);
    }
  }

  /** The commit has not been followed by its delete yet. */
  ghost predicate DeleteToCome(s: State, i: nat) {
    i < |s.commits| && s.commits[i].deleted.None?
  }

  /** The reading was made before the commit and set after its delete. */
  ghost predicate FilledAcross(s: State, c: Cached, i: nat) {
    i < |s.commits| && c.reading.version <= i && s.commits[i].deleted.Some? && s.commits[i].deleted.value < c.step
  }

  /** What a cached entry shows is not what is committed. */
  ghost predicate Stale(s: State, key: CacheKey) {
    key in s.cache && s.cache[key].reading.value != Look(Latest(s), key)
  }

  /** Why an entry can be stale: some commit changed what is read under its key after the entry was
      read from the database, and either that writer has not reached its delete, or the fill was read
      before that commit and set after that delete. */
  lemma StaleOnlyIf(ttl: nat, trace: seq<State>, n: nat, key: CacheKey) returns (i: nat)
    requires Run(ttl, trace) && n < |trace| && Stale(trace[n], key)
    ensures var s := trace[n]; var c := s.cache[key];
            c.reading.version <= i && Changes(s, key, i) && (DeleteToCome(s, i) || FilledAcross(s, c, i))
  {
    var s := trace[n];
    RunsKeep(ttl, trace, n);
    var c := s.cache[key];
    assert Genuine(s, key, c.reading) && Excused(s, key, c) && c.reading.value != NotFound;
    i := FirstChange(s, key, c.reading.version, |s.commits|);
    assert key in s.commits[i].deletes;
    hide Look;
  }

  /** Whatever a read was answered was the committed value at some moment: at its own database read
      if it missed; otherwise less than the time to live, plus the time that the fill took, ago. */
  lemma AnswersAreRecent(ttl: nat, trace: seq<State>, n: nat, call: CallId)
    requires Run(ttl, trace) && n < |trace| && call in trace[n].calls && trace[n].calls[call].Answered?
    ensures var s := trace[n]; var a := s.calls[call];
            && a.reading.version < |s.versions|
            && a.reading.value == Look(s.versions[a.reading.version], a.key) && CurrentAt(s, a.reading.version, a.reading.at)
            && (a.at == a.setAt || a.at - a.reading.at < ttl + (a.setAt - a.reading.at))
            && a.reading.at <= a.setAt <= a.at
  {
    RunsKeep(ttl, trace, n);
    assert CallFits(ttl, trace[n], trace[n].calls[call]);
    hide Run, Inv, Look;
  }

  /** Calls that do not overlap leave nothing stale: if every commit has been followed by its delete,
      and nothing cached was read before a commit and set after its delete, the cache is coherent. */
  lemma CoherentWithoutOverlap(ttl: nat, trace: seq<State>, n: nat)
    requires Run(ttl, trace) && n < |trace|
    requires forall i :: !DeleteToCome(trace[n], i)
    requires forall key, i :: key in trace[n].cache ==> !FilledAcross(trace[n], trace[n].cache[key], i)
    ensures forall key :: key in trace[n].cache ==> trace[n].cache[key].reading.value == Look(Latest(trace[n]), key)
  {
    hide Run, Look;
    forall key | key in trace[n].cache
      ensures !Stale(trace[n], key)
    {
      if Stale(trace[n], key) {
        var i := StaleOnlyIf(ttl, trace, n, key);
      }
    }
  }

  // ---------------------------------------------------------------------------------------------
  // Both causes are real
  // ---------------------------------------------------------------------------------------------

  function End(trace: seq<State>): State
    requires trace != []
  {
    trace[|trace| - 1]
  }

  lemma Longer(ttl: nat, trace: seq<State>, m: Move) returns (longer: seq<State>)
    requires Run(ttl, trace) && Can(ttl, End(trace), m)
    ensures Run(ttl, longer) && End(longer) == Do(ttl, End(trace), m)
  {
    hide Can, Do;
    longer := trace + [Do(ttl, End(trace), m)];
    assert Next(ttl, End(trace), Do(ttl, End(trace), m));
  }

  function Stock(total: nat): Pool {
    Pool(1, total, total, true)
  }

  /** A pool has been created, nothing is cached, and a reader has read it. */
  lemma SlowReader(ttl: nat) returns (trace: seq<State>)
    ensures Run(ttl, trace)
    ensures var s := End(trace);
            && s.calls.Keys == {0, 1} && s.calls[0] == Done && |s.versions| == 2 && |s.commits| == 1
            && s.calls[1] == Filling(Single(0), Reading(Row(PoolOut(0, Stock(0))), 1, s.clock))
            && s.commits[0].deleted.Some? && s.cache == map[] && Latest(s).tables.pools == map[0 := Stock(0)]
  {
    var r := CreatePool(0, 1);
    trace := [INITIAL];
    assert Serve(EMPTY_TABLES, r) == Served(EMPTY_TABLES.(pools := map[0 := Stock(0)]), PoolCreated);
    trace := Longer(ttl, trace, Write(0, r, 0, Serve(EMPTY_TABLES, r).tables));
    assert Latest(End(trace)).tables.pools == map[0 := Stock(0)];
    hide Serve;
    trace := Longer(ttl, trace, Delete(0));
    assert End(trace).cache == map[];
    trace := Longer(ttl, trace, Ask(1, Single(0)));
    trace := Longer(ttl, trace, Read(1));
  }

  /** A contribution is committed meanwhile. */
  lemma ContributedMeanwhile(ttl: nat) returns (trace: seq<State>)
    ensures Run(ttl, trace)
    ensures var s := End(trace);
            && s.calls.Keys == {0, 1, 2} && s.calls[0] == Done && s.calls[2] == Deleting(1) && |s.versions| == 3 && |s.commits| == 2
            && s.calls[1].Filling? && s.calls[1].key == Single(0) && s.calls[1].reading.value == Row(PoolOut(0, Stock(0))) && s.calls[1].reading.version == 1
            && s.commits[0].deleted.Some? && s.commits[1].deleted.None? && s.cache == map[] && Latest(s).tables.pools == map[0 := Stock(5)]
  {
    var before := SlowReader(ttl);
    var t, r := Latest(End(before)).tables, Contribute(0, 0, 5);
    assert Serve(t, r).tables.pools == map[0 := Stock(5)];
    hide Serve;
    trace := Longer(ttl, before, Write(2, r, 0, Serve(t, r).tables));
  }

  /** A slow fill leaves a stale entry behind although every writer has made its delete and every
      call has ended: only the time to live clears it. */
  lemma SlowFillStaysStale(ttl: nat) returns (trace: seq<State>)
    ensures Run(ttl, trace)
    ensures var s := End(trace);
            && (forall call :: call in s.calls ==> s.calls[call].Done? || s.calls[call].Answered?)
            && (forall i :: !DeleteToCome(s, i))
            && Single(0) in s.cache && s.cache[Single(0)].reading.value == Row(PoolOut(0, Stock(0)))
            && Look(Latest(s), Single(0)) == Row(PoolOut(0, Stock(5)))
  {
    var before := ContributedMeanwhile(ttl);
    var deleted := Longer(ttl, before, Delete(2));
    trace := Longer(ttl, deleted, Fill(1));
  }

  /** A fast fill is stale while the writer is between its commit and its delete. */
  lemma StaleBeforeDelete(ttl: nat) returns (trace: seq<State>)
    ensures Run(ttl, trace)
    ensures var s := End(trace);
            && DeleteToCome(s, 1)
            && Single(0) in s.cache && s.cache[Single(0)].reading.value == Row(PoolOut(0, Stock(0)))
            && Look(Latest(s), Single(0)) == Row(PoolOut(0, Stock(5)))
  {
    var before := ContributedMeanwhile(ttl);
    trace := Longer(ttl, before, Fill(1));
  }
}
