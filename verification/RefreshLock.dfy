/**
 The per-account refresh lock (proxy/token_refresh.go) as a state machine over its atomic steps:
 a table of entries with reference counts guarded by a mutex, a one-slot gate per entry, callers
 that may give up while waiting, and the token refresh done while holding the gate.
 */
module RefreshLock {

  const TOKEN_REFRESH_SKEW_SECONDS := 120

  type Tid = nat
  type EntryId = nat

  /** An accountRefreshLock: whose it is, its reference count and whether its gate is taken. */
  datatype Entry = Entry(account: string, refs: int, full: bool)

  /** One call of refreshStoredAccount: the generation of the tokens the caller holds is `seen`. */
  datatype Request = Request(account: string, force: bool, seen: nat, apiKey: bool)

  /** What a caller returns with: an error, or the tokens of a generation. */
  datatype Answer = Failed | Got(generation: nat)

  /** Where a caller is; every state but Idle still counts in the entry's refs. */
  datatype Caller =
    | Idle
    | Waiting(entry: EntryId, request: Request)
    | Cancelling(entry: EntryId)
    | Holding(entry: EntryId, request: Request)
    | Refreshing(entry: EntryId, request: Request, base: nat)
    | Finished(entry: EntryId, request: Request, got: Answer)
    | Unlocking(entry: EntryId)

  /** The stored tokens of an account; 0 never expires. */
  datatype Token = Token(generation: nat, expiresAt: int)

  /** A call of the upstream refresh: what it was asked with, and whether the stored token was still valid. */
  datatype UpstreamCall = UpstreamCall(request: Request, base: nat, validThen: bool)

  /** A refresh that was stored: from which generation of the account's tokens it came, and which one it made. */
  datatype StoredRefresh = StoredRefresh(account: string, base: nat, generation: nat)

  datatype State = State(
    entries: map<EntryId, Entry>,
    table: map<string, EntryId>,
    callers: map<Tid, Caller>,
    nextEntry: EntryId,
    store: map<string, Token>,
    nextGeneration: nat,
    log: seq<UpstreamCall>,
    stored: seq<StoredRefresh>)

  datatype Action =
    | Enter(tid: Tid, request: Request)
    | TakeGate(tid: Tid)
    | Cancel(tid: Tid)
    | Decide(tid: Tid, now: int, gone: bool)
    | Store(tid: Tid, expiresAt: int)
    | FailRefresh(tid: Tid)
    | LeaveGate(tid: Tid)
    | ReleaseRef(tid: Tid)
    | DeleteAccount(account: string)
    | AddAccount(account: string, expiresAt: int)

  function CallerOf(s: State, tid: Tid): Caller {
    if tid in s.callers then s.callers[tid] else Idle
  }

  predicate HasGate(c: Caller) {
    c.Holding? || c.Refreshing? || c.Finished?
  }

  predicate StillValid(t: Token, now: int) {
    t.expiresAt == 0 || now < t.expiresAt - TOKEN_REFRESH_SKEW_SECONDS
  }

  /** An action can happen only where the code can be. */
  predicate Enabled(s: State, a: Action) {
    match a
    case Enter(tid, _) => CallerOf(s, tid).Idle?
    case TakeGate(tid) => var c := CallerOf(s, tid); c.Waiting? && c.entry in s.entries && !s.entries[c.entry].full
    case Cancel(tid) => CallerOf(s, tid).Waiting?
    case Decide(tid, _, _) => CallerOf(s, tid).Holding?
    case Store(tid, _) => CallerOf(s, tid).Refreshing?
    case FailRefresh(tid) => CallerOf(s, tid).Refreshing?
    case LeaveGate(tid) => var c := CallerOf(s, tid); c.Finished? && c.entry in s.entries
    case ReleaseRef(tid) => var c := CallerOf(s, tid); (c.Unlocking? || c.Cancelling?) && c.entry in s.entries
    case DeleteAccount(_) => true
    case AddAccount(account, _) => account !in s.store
  }

  function Move(s: State, tid: Tid, c: Caller): State {
    s.(callers := s.callers[tid := c])
  }

  /** Under the mutex: find or create the entry and count the reference. */
  function EnterStep(s: State, tid: Tid, request: Request): State {
    var id := request.account;
    if id in s.table && s.table[id] in s.entries then
      var e := s.table[id];
      Move(s.(entries := s.entries[e := s.entries[e].(refs := s.entries[e].refs + 1)]), tid, Waiting(e, request))
    else
      var e := s.nextEntry;
      Move(s.(entries := s.entries[e := Entry(id, 1, false)], table := s.table[id := e], nextEntry := e + 1), tid,
           Waiting(e, request))
  }

  /** Under the mutex: drop the reference, and the account's table entry with the last one. */
  function ReleaseStep(s: State, tid: Tid, e: EntryId): State
    requires e in s.entries
  {
    var entry := s.entries[e].(refs := s.entries[e].refs - 1);
    Move(s.(entries := s.entries[e := entry],
            table := if entry.refs == 0 then s.table - {entry.account} else s.table),
         tid, Idle)
  }

  /** Holding the gate: give up if the caller is gone, return if the stored token will do, or refresh. */
  function DecideStep(s: State, tid: Tid, e: EntryId, request: Request, now: int, gone: bool): State {
    if gone || request.account !in s.store then Move(s, tid, Finished(e, request, Failed))
    else
      var latest := s.store[request.account];
      var rotated, valid := latest.generation != request.seen, StillValid(latest, now);
      if request.apiKey || ((!request.force || rotated) && valid)
      then Move(s, tid, Finished(e, request, Got(latest.generation)))
      else
        Move(s.(log := s.log + [UpstreamCall(request, latest.generation, valid)]), tid,
             Refreshing(e, request, latest.generation))
  }

  /** The refreshed tokens replace the stored ones, unless the account is gone. */
  function StoreStep(s: State, tid: Tid, e: EntryId, request: Request, base: nat, expiresAt: int): State {
    if request.account !in s.store then Move(s, tid, Finished(e, request, Failed))
    else
      Move(s.(store := s.store[request.account := Token(s.nextGeneration, expiresAt)],
              nextGeneration := s.nextGeneration + 1,
              stored := s.stored + [StoredRefresh(request.account, base, s.nextGeneration)]),
           tid, Finished(e, request, Got(s.nextGeneration)))
  }

  function Apply(s: State, a: Action): State
    requires Enabled(s, a)
  {
    match a
    case Enter(tid, request) => EnterStep(s, tid, request)
    case TakeGate(tid) =>
      var c := CallerOf(s, tid);
      Move(s.(entries := s.entries[c.entry := s.entries[c.entry].(full := true)]), tid, Holding(c.entry, c.request))
    case Cancel(tid) => Move(s, tid, Cancelling(CallerOf(s, tid).entry))
    case Decide(tid, now, gone) => DecideStep(s, tid, CallerOf(s, tid).entry, CallerOf(s, tid).request, now, gone)
    case Store(tid, expiresAt) =>
      var c := CallerOf(s, tid);
      StoreStep(s, tid, c.entry, c.request, c.base, expiresAt)
    case FailRefresh(tid) => Move(s, tid, Finished(CallerOf(s, tid).entry, CallerOf(s, tid).request, Failed))
    case LeaveGate(tid) =>
      var e := CallerOf(s, tid).entry;
      Move(s.(entries := s.entries[e := s.entries[e].(full := false)]), tid, Unlocking(e))
    case ReleaseRef(tid) => ReleaseStep(s, tid, CallerOf(s, tid).entry)
    case DeleteAccount(account) => s.(store := s.store - {account})
    case AddAccount(account, expiresAt) =>
      s.(store := s.store[account := Token(s.nextGeneration, expiresAt)], nextGeneration := s.nextGeneration + 1)
  }

  // ---------------------------------------------------------------- the invariant

  /** The callers that hold a reference to an entry: they wait for its gate, hold it or are leaving. */
  ghost function Referrers(s: State, e: EntryId): set<Tid> {
    set tid | tid in s.callers && !s.callers[tid].Idle? && s.callers[tid].entry == e
  }

  ghost predicate RefsAreCounted(s: State) {
    && (forall e :: e in s.entries ==> s.entries[e].refs == |Referrers(s, e)| && e < s.nextEntry)
    && (forall tid :: tid in s.callers && !s.callers[tid].Idle? ==> s.callers[tid].entry in s.entries)
  }

  /**
   An account is in the table exactly while an entry of its has references, and that entry is the one in the
   table.
   */
  ghost predicate TableIsLive(s: State) {
    && (forall id :: id in s.table ==>
        s.table[id] in s.entries && s.entries[s.table[id]].account == id && s.entries[s.table[id]].refs > 0)
    && (forall e :: e in s.entries && s.entries[e].refs > 0 ==>
        s.entries[e].account in s.table && s.table[s.entries[e].account] == e)
  }

  /** A gate is taken exactly when one caller has it. */
  ghost predicate GatesAreHeld(s: State) {
    && (forall tid :: tid in s.callers && HasGate(s.callers[tid]) ==>
        s.callers[tid].entry in s.entries && s.entries[s.callers[tid].entry].full)
    && (forall t, u :: (t in s.callers && u in s.callers && HasGate(s.callers[t]) && HasGate(s.callers[u])
                        && s.callers[t].entry == s.callers[u].entry) ==> t == u)
    && (forall e :: e in s.entries && s.entries[e].full ==>
        exists tid :: tid in s.callers && HasGate(s.callers[tid]) && s.callers[tid].entry == e)
  }

  /** A caller's entry belongs to the account it asked for. */
  ghost predicate EntriesMatch(s: State) {
    forall tid :: tid in s.callers && (s.callers[tid].Waiting? || HasGate(s.callers[tid])) ==>
      s.callers[tid].entry in s.entries && s.entries[s.callers[tid].entry].account == s.callers[tid].request.account
  }

  /** Refreshes start from tokens that were there before, and none was needless. */
  ghost predicate RefreshesAreSound(s: State) {
    && (forall tid :: tid in s.callers && s.callers[tid].Refreshing? ==> s.callers[tid].base < s.nextGeneration)
    && (forall id :: id in s.store ==> s.store[id].generation < s.nextGeneration)
    && (forall i :: 0 <= i < |s.log| ==> s.log[i].validThen ==>
        s.log[i].request.force && s.log[i].request.seen == s.log[i].base)
  }

  ghost predicate Inv(s: State) {
    RefsAreCounted(s) && TableIsLive(s) && GatesAreHeld(s) && EntriesMatch(s) && RefreshesAreSound(s)
  }

  // ---------------------------------------------------------------- what the invariant says

  lemma ReferrerCounts(s: State, tid: Tid)
    requires RefsAreCounted(s) && tid in s.callers && !s.callers[tid].Idle?
    ensures s.callers[tid].entry in s.entries && s.entries[s.callers[tid].entry].refs > 0
  {
    var e := s.callers[tid].entry;
    assert tid in Referrers(s, e);
    assert |Referrers(s, e)| > 0;
  }

  /** Two callers never hold the refresh of one account, even when its entry was dropped and made again. */
  lemma MutualExclusion(s: State, t: Tid, u: Tid)
    requires Inv(s)
    requires t in s.callers && u in s.callers && HasGate(s.callers[t]) && HasGate(s.callers[u])
    requires s.callers[t].request.account == s.callers[u].request.account
    ensures t == u
  {
    ReferrerCounts(s, t);
    ReferrerCounts(s, u);
  }

  /** An account has an entry in the table exactly while some caller refers to it. */
  lemma InTableExactlyWhileReferred(s: State, account: string)
    requires Inv(s)
    ensures account in s.table <==>
            exists tid :: tid in s.callers && !s.callers[tid].Idle? && s.callers[tid].entry in s.entries
                          && s.entries[s.callers[tid].entry].account == account
  {
    if account in s.table {
      var e := s.table[account];
      assert |Referrers(s, e)| > 0;
      var tid :| tid in Referrers(s, e);
      assert s.entries[s.callers[tid].entry].account == account;
    }
    forall tid | tid in s.callers && !s.callers[tid].Idle? ensures s.entries[s.callers[tid].entry].account in s.table {
      ReferrerCounts(s, tid);
    }
  }

  // ---------------------------------------------------------------- every step keeps it

  /** No entry loses its owner, and gates of entries in place stay as they are. */
  ghost predicate SameEntries(s: State, s': State) {
    forall e :: e in s.entries ==>
        e in s'.entries && s'.entries[e].account == s.entries[e].account && s'.entries[e].full == s.entries[e].full
  }

  /** A caller moves without taking or leaving a gate. */
  lemma MoveKeepsGates(s: State, s': State, tid: Tid, c: Caller)
    requires GatesAreHeld(s) && SameEntries(s, s')
    requires forall e :: e in s'.entries && e !in s.entries ==> !s'.entries[e].full
    requires s'.callers == s.callers[tid := c]
    requires HasGate(c) <==> HasGate(CallerOf(s, tid))
    requires HasGate(c) ==> c.entry == CallerOf(s, tid).entry
    ensures GatesAreHeld(s')
  {
    forall e | e in s'.entries && s'.entries[e].full
      ensures exists u :: u in s'.callers && HasGate(s'.callers[u]) && s'.callers[u].entry == e
    {
      var u :| u in s.callers && HasGate(s.callers[u]) && s.callers[u].entry == e;
      assert u in s'.callers && HasGate(s'.callers[u]) && s'.callers[u].entry == e;
    }
  }

  lemma MoveKeepsMatches(s: State, s': State, tid: Tid, c: Caller)
    requires EntriesMatch(s)
    requires forall e :: e in s.entries ==> e in s'.entries && s'.entries[e].account == s.entries[e].account
    requires s'.callers == s.callers[tid := c]
    requires c.Waiting? || HasGate(c) ==> c.entry in s'.entries && s'.entries[c.entry].account == c.request.account
    ensures EntriesMatch(s')
  {
  }

  lemma MoveKeepsRefreshes(s: State, s': State, tid: Tid, c: Caller)
    requires RefreshesAreSound(s) && !c.Refreshing?
    requires s'.callers == s.callers[tid := c]
    requires s'.store == s.store && s'.nextGeneration == s.nextGeneration && s'.log == s.log
    ensures RefreshesAreSound(s')
  {
  }

  /** A caller moving on within one entry keeps the counts. */
  lemma MoveKeepsRefs(s: State, s': State, tid: Tid, c: Caller)
    requires RefsAreCounted(s) && TableIsLive(s)
    requires tid in s.callers && !s.callers[tid].Idle? && !c.Idle? && c.entry == s.callers[tid].entry
    requires s'.callers == s.callers[tid := c] && s'.table == s.table && s'.nextEntry == s.nextEntry
    requires s'.entries.Keys == s.entries.Keys
    requires forall e :: e in s.entries ==>
               s'.entries[e].refs == s.entries[e].refs && s'.entries[e].account == s.entries[e].account
    ensures RefsAreCounted(s') && TableIsLive(s')
  {
    forall e | e in s'.entries ensures s'.entries[e].refs == |Referrers(s', e)| {
      assert Referrers(s', e) == Referrers(s, e);
    }
  }

  /** A caller that was idle refers to the entry it enters, and to no other. */
  lemma ReferrersAfterEnter(s: State, s': State, tid: Tid, c: Caller)
    requires CallerOf(s, tid).Idle? && !c.Idle? && s'.callers == s.callers[tid := c]
    ensures |Referrers(s', c.entry)| == |Referrers(s, c.entry)| + 1
    ensures forall e :: e != c.entry ==> Referrers(s', e) == Referrers(s, e)
  {
    assert Referrers(s', c.entry) == Referrers(s, c.entry) + {tid};
    forall e | e != c.entry ensures Referrers(s', e) == Referrers(s, e) { }
  }

  lemma EnterKeepsCounts(s: State, tid: Tid, request: Request)
    requires RefsAreCounted(s) && CallerOf(s, tid).Idle?
    ensures RefsAreCounted(EnterStep(s, tid, request))
  {
    hide Referrers;
    var s' := EnterStep(s, tid, request);
    ReferrersAfterEnter(s, s', tid, s'.callers[tid]);
    NobodyRefers(s);
  }

  lemma NobodyRefers(s: State)
    requires RefsAreCounted(s)
    ensures s.nextEntry !in s.entries && Referrers(s, s.nextEntry) == {}
  {
  }

  lemma EnterKeepsTable(s: State, tid: Tid, request: Request)
    requires RefsAreCounted(s) && TableIsLive(s) && CallerOf(s, tid).Idle?
    ensures TableIsLive(EnterStep(s, tid, request))
  {
    hide Referrers;
    NobodyRefers(s);
  }

  lemma EnterKeepsInv(s: State, tid: Tid, request: Request)
    requires Inv(s) && CallerOf(s, tid).Idle?
    ensures Inv(EnterStep(s, tid, request))
  {
    hide RefsAreCounted, TableIsLive, GatesAreHeld, EntriesMatch, RefreshesAreSound;
    var s' := EnterStep(s, tid, request);
    var c := s'.callers[tid];
    EnterKeepsCounts(s, tid, request);
    EnterKeepsTable(s, tid, request);
    NobodyRefers(s);
    TableMatches(s, request.account);
    MoveKeepsGates(s, s', tid, c);
    MoveKeepsMatches(s, s', tid, c);
    MoveKeepsRefreshes(s, s', tid, c);
  }

  lemma TableMatches(s: State, account: string)
    requires TableIsLive(s)
    ensures account in s.table ==> s.table[account] in s.entries && s.entries[s.table[account]].account == account
  {
  }

  lemma ReferrersAfterRelease(s: State, s': State, tid: Tid)
    requires tid in s.callers && !s.callers[tid].Idle? && s'.callers == s.callers[tid := Idle]
    ensures |Referrers(s', s.callers[tid].entry)| == |Referrers(s, s.callers[tid].entry)| - 1
    ensures forall e :: e != s.callers[tid].entry ==> Referrers(s', e) == Referrers(s, e)
  {
    var mine := s.callers[tid].entry;
    assert tid in Referrers(s, mine);
    assert Referrers(s', mine) == Referrers(s, mine) - {tid};
    forall e | e != mine ensures Referrers(s', e) == Referrers(s, e) { }
  }

  lemma ReleaseKeepsRefs(s: State, tid: Tid)
    requires RefsAreCounted(s) && TableIsLive(s) && Enabled(s, ReleaseRef(tid))
    ensures var s' := ReleaseStep(s, tid, CallerOf(s, tid).entry); RefsAreCounted(s') && TableIsLive(s')
  {
    hide Referrers;
    ReferrerCounts(s, tid);
    ReferrersAfterRelease(s, ReleaseStep(s, tid, CallerOf(s, tid).entry), tid);
  }

  lemma ReleaseKeepsInv(s: State, tid: Tid)
    requires Inv(s) && Enabled(s, ReleaseRef(tid))
    ensures Inv(ReleaseStep(s, tid, CallerOf(s, tid).entry))
  {
    hide RefsAreCounted, TableIsLive, GatesAreHeld, EntriesMatch, RefreshesAreSound;
    var s' := ReleaseStep(s, tid, CallerOf(s, tid).entry);
    ReleaseKeepsRefs(s, tid);
    MoveKeepsGates(s, s', tid, Idle);
    MoveKeepsMatches(s, s', tid, Idle);
    MoveKeepsRefreshes(s, s', tid, Idle);
  }

  lemma TakeGateKeepsInv(s: State, tid: Tid)
    requires Inv(s) && Enabled(s, TakeGate(tid))
    ensures Inv(Apply(s, TakeGate(tid)))
  {
    hide RefsAreCounted, TableIsLive, EntriesMatch, RefreshesAreSound;
    var s' := Apply(s, TakeGate(tid));
    var c := s'.callers[tid];
    WaiterMatches(s, tid);
    MoveKeepsRefs(s, s', tid, c);
    MoveKeepsMatches(s, s', tid, c);
    MoveKeepsRefreshes(s, s', tid, c);
    forall e | e in s'.entries && s'.entries[e].full
      ensures exists u :: u in s'.callers && HasGate(s'.callers[u]) && s'.callers[u].entry == e
    {
      if e == c.entry {
        assert HasGate(s'.callers[tid]);
      } else {
        var u :| u in s.callers && HasGate(s.callers[u]) && s.callers[u].entry == e;
        assert u in s'.callers && HasGate(s'.callers[u]) && s'.callers[u].entry == e;
      }
    }
  }

  lemma LeaveGateKeepsInv(s: State, tid: Tid)
    requires Inv(s) && Enabled(s, LeaveGate(tid))
    ensures Inv(Apply(s, LeaveGate(tid)))
  {
    hide RefsAreCounted, TableIsLive, EntriesMatch, RefreshesAreSound;
    var s' := Apply(s, LeaveGate(tid));
    var c := s'.callers[tid];
    MoveKeepsRefs(s, s', tid, c);
    MoveKeepsMatches(s, s', tid, c);
    MoveKeepsRefreshes(s, s', tid, c);
    forall e | e in s'.entries && s'.entries[e].full
      ensures exists u :: u in s'.callers && HasGate(s'.callers[u]) && s'.callers[u].entry == e
    {
      var u :| u in s.callers && HasGate(s.callers[u]) && s.callers[u].entry == e;
      assert u in s'.callers && HasGate(s'.callers[u]) && s'.callers[u].entry == e;
    }
  }

  lemma WaiterMatches(s: State, tid: Tid)
    requires EntriesMatch(s) && tid in s.callers && (s.callers[tid].Waiting? || HasGate(s.callers[tid]))
    ensures var c := s.callers[tid]; c.entry in s.entries && s.entries[c.entry].account == c.request.account
  {
  }

  /** Giving up, deciding, storing and failing: the caller stays with its entry and its gate. */
  lemma StayKeepsInv(s: State, s': State, tid: Tid, c: Caller)
    requires Inv(s) && RefreshesAreSound(s')
    requires tid in s.callers && (s.callers[tid].Waiting? || HasGate(s.callers[tid]))
    requires s'.callers == s.callers[tid := c] && s'.table == s.table && s'.nextEntry == s.nextEntry
               && s'.entries == s.entries
    requires !c.Idle? && c.entry == s.callers[tid].entry
    requires HasGate(c) <==> HasGate(s.callers[tid])
    requires c.Waiting? || HasGate(c) ==> c.request.account == s.callers[tid].request.account
    ensures Inv(s')
  {
    hide RefsAreCounted, TableIsLive, GatesAreHeld, EntriesMatch, RefreshesAreSound;
    WaiterMatches(s, tid);
    MoveKeepsRefs(s, s', tid, c);
    MoveKeepsGates(s, s', tid, c);
    MoveKeepsMatches(s, s', tid, c);
  }

  lemma DecideKeepsInv(s: State, tid: Tid, now: int, gone: bool)
    requires Inv(s) && Enabled(s, Decide(tid, now, gone))
    ensures Inv(Apply(s, Decide(tid, now, gone)))
  {
    hide RefsAreCounted, TableIsLive, GatesAreHeld, EntriesMatch, RefreshesAreSound, Enabled, Apply, HasGate;
    HolderStays(s, Decide(tid, now, gone));
    DecideKeepsRefreshes(s, tid, now, gone);
    var s' := Apply(s, Decide(tid, now, gone));
    StayKeepsInv(s, s', tid, s'.callers[tid]);
  }

  lemma StoreKeepsInv(s: State, tid: Tid, expiresAt: int)
    requires Inv(s) && Enabled(s, Store(tid, expiresAt))
    ensures Inv(Apply(s, Store(tid, expiresAt)))
  {
    hide RefsAreCounted, TableIsLive, GatesAreHeld, EntriesMatch, RefreshesAreSound, Enabled, Apply, HasGate;
    HolderStays(s, Store(tid, expiresAt));
    StoreKeepsRefreshes(s, tid, expiresAt);
    var s' := Apply(s, Store(tid, expiresAt));
    StayKeepsInv(s, s', tid, s'.callers[tid]);
  }

  /** Deciding and storing leave a caller with its entry, its request and its gate. */
  lemma HolderStays(s: State, a: Action)
    requires Enabled(s, a) && (a.Decide? || a.Store?)
    ensures a.tid in s.callers && HasGate(s.callers[a.tid])
    ensures var s' := Apply(s, a);
            && a.tid in s'.callers && s'.callers == s.callers[a.tid := s'.callers[a.tid]]
            && s'.table == s.table && s'.nextEntry == s.nextEntry && s'.entries == s.entries
            && HasGate(s'.callers[a.tid]) && !s'.callers[a.tid].Idle?
            && s'.callers[a.tid].entry == s.callers[a.tid].entry
            && s'.callers[a.tid].request == s.callers[a.tid].request
  {
  }

  lemma DecideKeepsRefreshes(s: State, tid: Tid, now: int, gone: bool)
    requires RefreshesAreSound(s) && Enabled(s, Decide(tid, now, gone))
    ensures RefreshesAreSound(Apply(s, Decide(tid, now, gone)))
  {
  }

  lemma StoreKeepsRefreshes(s: State, tid: Tid, expiresAt: int)
    requires RefreshesAreSound(s) && Enabled(s, Store(tid, expiresAt))
    ensures RefreshesAreSound(Apply(s, Store(tid, expiresAt)))
  {
  }

  lemma ActionKeepsInv(s: State, a: Action)
    requires Inv(s) && Enabled(s, a)
    ensures Inv(Apply(s, a))
  {
    hide RefsAreCounted, TableIsLive, GatesAreHeld, EntriesMatch, RefreshesAreSound;
    var s' := Apply(s, a);
    match a
    case Enter(tid, request) => EnterKeepsInv(s, tid, request);
    case TakeGate(tid) => TakeGateKeepsInv(s, tid);
    case Cancel(tid) =>
      MoveKeepsRefreshes(s, s', tid, s'.callers[tid]);
      StayKeepsInv(s, s', tid, s'.callers[tid]);
    case Decide(tid, now, gone) => DecideKeepsInv(s, tid, now, gone);
    case Store(tid, expiresAt) => StoreKeepsInv(s, tid, expiresAt);
    case FailRefresh(tid) =>
      MoveKeepsRefreshes(s, s', tid, s'.callers[tid]);
      StayKeepsInv(s, s', tid, s'.callers[tid]);
    case LeaveGate(tid) => LeaveGateKeepsInv(s, tid);
    case ReleaseRef(tid) => ReleaseKeepsInv(s, tid);
    case DeleteAccount(_) => AccountsKeepInv(s, a);
    case AddAccount(_, _) => AccountsKeepInv(s, a);
  }

  /** Accounts come and go without touching callers and entries. */
  lemma AccountsKeepInv(s: State, a: Action)
    requires Inv(s) && Enabled(s, a) && (a.DeleteAccount? || a.AddAccount?)
    ensures Inv(Apply(s, a))
  {
    hide RefsAreCounted, TableIsLive, GatesAreHeld, EntriesMatch, RefreshesAreSound;
    SameLocks(s, Apply(s, a));
    AccountsKeepRefreshes(s, a);
  }

  lemma SameLocks(s: State, s': State)
    requires s'.callers == s.callers && s'.entries == s.entries && s'.table == s.table && s'.nextEntry == s.nextEntry
    ensures RefsAreCounted(s) ==> RefsAreCounted(s')
    ensures TableIsLive(s) ==> TableIsLive(s')
    ensures GatesAreHeld(s) ==> GatesAreHeld(s')
    ensures EntriesMatch(s) ==> EntriesMatch(s')
  {
    assert forall e :: Referrers(s', e) == Referrers(s, e);
  }

  lemma AccountsKeepRefreshes(s: State, a: Action)
    requires RefreshesAreSound(s) && Enabled(s, a) && (a.DeleteAccount? || a.AddAccount?)
    ensures RefreshesAreSound(Apply(s, a))
  {
  }

  // ---------------------------------------------------------------- whole runs

  /** A schedule: the actions that are enabled when their turn comes happen, the others do not. */
  function Run(s: State, schedule: seq<Action>): State
    decreases |schedule|
  {
    if schedule == [] then s
    else Run(if Enabled(s, schedule[0]) then Apply(s, schedule[0]) else s, schedule[1..])
  }

  /** Nobody has called yet. */
  ghost predicate Initial(s: State) {
    && s.entries == map[] && s.table == map[] && s.callers == map[] && s.log == [] && s.stored == []
    && forall id :: id in s.store ==> s.store[id].generation < s.nextGeneration
  }

  lemma {:induction false} RunKeepsInv(s: State, schedule: seq<Action>)
    requires Inv(s)
    ensures Inv(Run(s, schedule))
    decreases |schedule|
  {
    hide Inv, Enabled, Apply;
    if schedule != [] {
      if Enabled(s, schedule[0]) {
        ActionKeepsInv(s, schedule[0]);
        RunKeepsInv(Apply(s, schedule[0]), schedule[1..]);
      } else {
        RunKeepsInv(s, schedule[1..]);
      }
    }
  }

  /**
   All interleavings, with callers giving up and accounts coming and going anywhere: one holder per
   account, references counted, entries dropped on time.
   */
  lemma EveryRunIsExclusive(s: State, schedule: seq<Action>)
    requires Initial(s)
    ensures var end := Run(s, schedule);
            && Inv(end)
            && (forall t, u :: (t in end.callers && u in end.callers && HasGate(end.callers[t])
                                && HasGate(end.callers[u])
                                && end.callers[t].request.account == end.callers[u].request.account) ==> t == u)
  {
    assert Inv(s);
    RunKeepsInv(s, schedule);
    var end := Run(s, schedule);
    forall t, u | t in end.callers && u in end.callers && HasGate(end.callers[t]) && HasGate(end.callers[u])
                  && end.callers[t].request.account == end.callers[u].request.account
      ensures t == u
    {
      hide Inv;
      MutualExclusion(end, t, u);
    }
  }

  /** A refresh is only asked for with tokens that ran out, or by a forced caller whose tokens nobody replaced. */
  lemma CallsHaveReason(s: State, i: nat)
    requires Inv(s) && i < |s.log|
    ensures s.log[i].validThen ==> s.log[i].request.force && s.log[i].request.seen == s.log[i].base
  {
  }

  // ---------------------------------------------------------------- one refresh after another

  /** From now on the account's tokens, and what its refreshes start from, are of generation `g` or later. */
  ghost predicate Since(s: State, account: string, g: nat, start: nat) {
    && g <= s.nextGeneration && start <= |s.log|
    && (account in s.store ==> g <= s.store[account].generation)
    && (forall i :: start <= i < |s.log| && s.log[i].request.account == account ==> g <= s.log[i].base)
  }

  lemma ActionKeepsSince(s: State, a: Action, account: string, g: nat, start: nat)
    requires Since(s, account, g, start) && Enabled(s, a)
    ensures Since(Apply(s, a), account, g, start)
  {
  }

  lemma {:induction false} RunKeepsSince(s: State, schedule: seq<Action>, account: string, g: nat, start: nat)
    requires Since(s, account, g, start)
    ensures Since(Run(s, schedule), account, g, start)
    decreases |schedule|
  {
    hide Since, Enabled, Apply;
    if schedule != [] {
      if Enabled(s, schedule[0]) {
        ActionKeepsSince(s, schedule[0], account, g, start);
        RunKeepsSince(Apply(s, schedule[0]), schedule[1..], account, g, start);
      } else {
        RunKeepsSince(s, schedule[1..], account, g, start);
      }
    }
  }

  /**
   Whoever waited while a refresh was stored does not refresh again.  After any run in which `tid` is
   about to store a refresh, and whatever happens from then on: a later refresh of the account starts
   from newer tokens, and a caller that still held those that were replaced, or older ones, forced or
   not, makes one only when the stored token is no longer valid.
   */
  lemma WaitersDoNotRefreshAgain(s0: State, before: seq<Action>, tid: Tid, expiresAt: int, after: seq<Action>, i: nat)
    requires Initial(s0) && Enabled(Run(s0, before), Store(tid, expiresAt))
    requires var s := Run(s0, before); s.callers[tid].request.account in s.store
    requires var s := Run(s0, before);
             var later := Run(Apply(s, Store(tid, expiresAt)), after);
             |s.log| <= i < |later.log| && later.log[i].request.account == s.callers[tid].request.account
    ensures var s := Run(s0, before);
            var call := Run(Apply(s, Store(tid, expiresAt)), after).log[i];
            && call.base > s.callers[tid].base
            && (call.request.seen <= s.callers[tid].base ==> !call.validThen)
  {
    var s, store := Run(s0, before), Store(tid, expiresAt);
    var account := s.callers[tid].request.account;
    EveryRunIsExclusive(s0, before);
    StoreStartsAnew(s, tid, expiresAt);
    hide Inv, Since, Enabled, Apply;
    ActionKeepsInv(s, store);
    RunKeepsInv(Apply(s, store), after);
    RunKeepsSince(Apply(s, store), after, account, s.nextGeneration, |s.log|);
    CallsHaveReason(Run(Apply(s, store), after), i);
    SinceMeans(Run(Apply(s, store), after), account, s.nextGeneration, |s.log|, i);
  }

  lemma StoreStartsAnew(s: State, tid: Tid, expiresAt: int)
    requires Inv(s) && Enabled(s, Store(tid, expiresAt)) && s.callers[tid].request.account in s.store
    ensures s.callers[tid].base < s.nextGeneration
    ensures Since(Apply(s, Store(tid, expiresAt)), s.callers[tid].request.account, s.nextGeneration, |s.log|)
  {
  }

  lemma SinceMeans(s: State, account: string, g: nat, start: nat, i: nat)
    requires Since(s, account, g, start) && start <= i < |s.log| && s.log[i].request.account == account
    ensures g <= s.log[i].base
  {
  }

  /**
   The stored refreshes of an account follow one another: each started from what those before it had made,
   and so does one under way.
   */
  ghost predicate Chained(s: State) {
    && (forall i, j :: 0 <= i < j < |s.stored| && s.stored[i].account == s.stored[j].account ==>
          s.stored[i].generation <= s.stored[j].base)
    && (forall i :: 0 <= i < |s.stored| ==> s.stored[i].base < s.stored[i].generation < s.nextGeneration)
    && (forall i :: 0 <= i < |s.stored| && s.stored[i].account in s.store ==>
          s.stored[i].generation <= s.store[s.stored[i].account].generation)
    && (forall i, tid :: (0 <= i < |s.stored| && tid in s.callers && s.callers[tid].Refreshing?
                          && s.callers[tid].request.account == s.stored[i].account) ==>
          s.stored[i].generation <= s.callers[tid].base)
  }

  lemma ActionKeepsChained(s: State, a: Action)
    requires Inv(s) && Chained(s) && Enabled(s, a)
    ensures Chained(Apply(s, a))
  {
    hide Inv, Chained;
    if a.Store? {
      StoreKeepsChained(s, a.tid, a.expiresAt);
    } else if a.Decide? {
      DecideKeepsChained(s, a.tid, a.now, a.gone);
    } else if a.DeleteAccount? || a.AddAccount? {
      AccountsKeepChained(s, a);
    } else {
      assert NothingStored(s, Apply(s, a));
      MoveKeepsChained(s, Apply(s, a));
    }
  }

  lemma DecideKeepsChained(s: State, tid: Tid, now: int, gone: bool)
    requires Chained(s) && Enabled(s, Decide(tid, now, gone))
    ensures Chained(Apply(s, Decide(tid, now, gone)))
  {
  }

  lemma AccountsKeepChained(s: State, a: Action)
    requires Chained(s) && Enabled(s, a) && (a.DeleteAccount? || a.AddAccount?)
    ensures Chained(Apply(s, a))
  {
  }

  /** Nothing is stored and no refresh begins. */
  ghost predicate NothingStored(s: State, s': State) {
    && s'.stored == s.stored && s'.store == s.store && s'.nextGeneration == s.nextGeneration
    && forall tid :: tid in s'.callers && s'.callers[tid].Refreshing? ==>
         tid in s.callers && s.callers[tid] == s'.callers[tid]
  }

  lemma MoveKeepsChained(s: State, s': State)
    requires Chained(s) && NothingStored(s, s')
    ensures Chained(s')
  {
  }

  /** Here mutual exclusion is needed: nobody else is refreshing the account from tokens it has now replaced. */
  lemma StoreKeepsChained(s: State, tid: Tid, expiresAt: int)
    requires Inv(s) && Chained(s) && Enabled(s, Store(tid, expiresAt))
    ensures Chained(Apply(s, Store(tid, expiresAt)))
  {
    hide Chained, Apply;
    forall u | u in s.callers && s.callers[u].Refreshing?
               && s.callers[u].request.account == s.callers[tid].request.account
      ensures u == tid
    {
      MutualExclusion(s, tid, u);
    }
    hide Inv, Enabled;
    OnlyStoreKeepsChained(s, tid, expiresAt);
  }

  lemma OnlyStoreKeepsChained(s: State, tid: Tid, expiresAt: int)
    requires Chained(s) && Enabled(s, Store(tid, expiresAt))
    requires forall id :: id in s.store ==> s.store[id].generation < s.nextGeneration
    requires s.callers[tid].base < s.nextGeneration
    requires forall u :: (u in s.callers && s.callers[u].Refreshing?
                          && s.callers[u].request.account == s.callers[tid].request.account) ==> u == tid
    ensures Chained(Apply(s, Store(tid, expiresAt)))
  {
  }

  lemma {:induction false} RunKeepsChained(s: State, schedule: seq<Action>)
    requires Inv(s) && Chained(s)
    ensures Chained(Run(s, schedule))
    decreases |schedule|
  {
    hide Inv, Chained, Enabled, Apply;
    if schedule != [] {
      if Enabled(s, schedule[0]) {
        ActionKeepsInv(s, schedule[0]);
        ActionKeepsChained(s, schedule[0]);
        RunKeepsChained(Apply(s, schedule[0]), schedule[1..]);
      } else {
        RunKeepsChained(s, schedule[1..]);
      }
    }
  }

  /**
   In every run no two stored refreshes of an account spend the same tokens; the later one starts from what
   the earlier one made.
   */
  lemma TokensAreSpentOnce(s: State, schedule: seq<Action>, i: nat, j: nat)
    requires Initial(s) && i < j < |Run(s, schedule).stored|
    requires Run(s, schedule).stored[i].account == Run(s, schedule).stored[j].account
    ensures var stored := Run(s, schedule).stored;
            stored[i].base < stored[i].generation <= stored[j].base
  {
    EveryRunIsExclusive(s, []);
    RunKeepsChained(s, schedule);
  }

  // ---------------------------------------------------------------- a refresh that is needed happens

  /** A caller cannot do with these tokens: they end within two minutes, or it was told to replace just these. */
  predicate NeedsRefresh(r: Request, t: Token, now: int) {
    !r.apiKey && ((t.expiresAt != 0 && t.expiresAt <= now + 120) || (r.force && t.generation == r.seen))
  }

  /**
   After any run, a caller that is still wanted and finds its account asks for new tokens, in exchange for just
   those it finds, exactly when it cannot do with them, and else returns with them.  One that is not wanted
   any more, or whose account is gone, returns with an error and asks for none.
   */
  lemma RefreshesExactlyWhenNeeded(s0: State, before: seq<Action>, tid: Tid, now: int, gone: bool)
    requires Initial(s0) && Enabled(Run(s0, before), Decide(tid, now, gone))
    ensures var s, end := Run(s0, before), Run(s0, before + [Decide(tid, now, gone)]);
            var e, r := CallerOf(s, tid).entry, CallerOf(s, tid).request;
            && end.store == s.store
            && if gone || r.account !in s.store then
                 end.log == s.log && CallerOf(end, tid) == Finished(e, r, Failed)
               else
                 var t := s.store[r.account];
                 if NeedsRefresh(r, t, now) then
                   && CallerOf(end, tid) == Refreshing(e, r, t.generation)
                   && |end.log| == |s.log| + 1 && end.log[..|s.log|] == s.log
                   && end.log[|s.log|].request == r && end.log[|s.log|].base == t.generation
                 else end.log == s.log && CallerOf(end, tid) == Finished(e, r, Got(t.generation))
  {
    RunSnoc(s0, before, Decide(tid, now, gone));
    hide Run;
  }

  predicate SameTokens(s: State, s': State, account: string) {
    && (account in s'.store <==> account in s.store)
    && (account in s.store ==> s'.store[account] == s.store[account])
  }

  /**
   An account's tokens change only when a refresh of it is stored, or it is deleted or added; only storing is noted
   as a stored refresh, and only a decision asks upstream.
   */
  lemma NothingElseTouchesTokens(s: State, a: Action, account: string)
    requires Enabled(s, a)
    ensures var end := Apply(s, a);
            && (|| SameTokens(s, end, account)
                || (a.Store? && CallerOf(s, a.tid).request.account == account)
                || ((a.DeleteAccount? || a.AddAccount?) && a.account == account))
            && (end.stored == s.stored || a.Store?) && (end.log == s.log || a.Decide?)
  {
  }

  lemma {:induction false} RunSnoc(s: State, schedule: seq<Action>, a: Action)
    ensures var end := Run(s, schedule);
            Run(s, schedule + [a]) == if Enabled(end, a) then Apply(end, a) else end
    decreases |schedule|
  {
    hide Enabled, Apply;
    if schedule == [] {
      assert [] + [a] == [a] && [a][1..] == [];
    } else {
      assert (schedule + [a])[0] == schedule[0] && (schedule + [a])[1..] == schedule[1..] + [a];
      RunSnoc(if Enabled(s, schedule[0]) then Apply(s, schedule[0]) else s, schedule[1..], a);
    }
  }

  lemma {:induction false} RunConcat(s: State, a: seq<Action>, b: seq<Action>)
    ensures Run(s, a + b) == Run(Run(s, a), b)
    decreases |a|
  {
    hide Enabled, Apply;
    if a == [] {
      assert a + b == b;
    } else {
      assert (a + b)[0] == a[0] && (a + b)[1..] == a[1..] + b;
      RunConcat(if Enabled(s, a[0]) then Apply(s, a[0]) else s, a[1..], b);
    }
  }

  lemma RunOne(s: State, a: Action)
    requires Enabled(s, a)
    ensures Run(s, [a]) == Apply(s, a)
  {
    assert [a][1..] == [];
  }

  /**
   One caller from beginning to end, nobody else referring to its account: tokens that will not do are
   exchanged once, it returns with the new ones, and nothing of it stays behind in the table.
   */
  lemma NeededRefreshIsDone(s: State, tid: Tid, r: Request, now: int, expiresAt: int)
    requires Inv(s) && CallerOf(s, tid).Idle? && r.account !in s.table
    requires r.account in s.store && NeedsRefresh(r, s.store[r.account], now)
    ensures var t := s.store[r.account];
            var stored := Run(s, [Enter(tid, r), TakeGate(tid), Decide(tid, now, false), Store(tid, expiresAt)]);
            var end := Run(stored, [LeaveGate(tid), ReleaseRef(tid)]);
            && CallerOf(stored, tid) == Finished(s.nextEntry, r, Got(s.nextGeneration)) && CallerOf(end, tid) == Idle
            && end.log == s.log + [UpstreamCall(r, t.generation, StillValid(t, now))]
            && end.stored == s.stored + [StoredRefresh(r.account, t.generation, s.nextGeneration)]
            && end.store == s.store[r.account := Token(s.nextGeneration, expiresAt)] && end.table == s.table
  {
    hide Inv, Run, Enabled, Apply, Referrers, NeedsRefresh, StillValid;
    var entered := EntersAlone(s, tid, r, now);
    var stored := Run(entered, [Decide(tid, now, false), Store(tid, expiresAt)]);
    assert [Enter(tid, r), TakeGate(tid), Decide(tid, now, false), Store(tid, expiresAt)]
        == [Enter(tid, r), TakeGate(tid)] + [Decide(tid, now, false), Store(tid, expiresAt)];
    RunConcat(s, [Enter(tid, r), TakeGate(tid)], [Decide(tid, now, false), Store(tid, expiresAt)]);
    Exchanges(entered, tid, s.nextEntry, r, now, expiresAt);
    LeavesAlone(stored, tid, s.nextEntry, r);
    assert s.table[r.account := s.nextEntry] - {r.account} == s.table;
  }

  lemma EntersAlone(s: State, tid: Tid, r: Request, now: int) returns (end: State)
    requires Inv(s) && CallerOf(s, tid).Idle? && r.account !in s.table
    ensures end == Run(s, [Enter(tid, r), TakeGate(tid)])
    ensures CallerOf(end, tid) == Holding(s.nextEntry, r)
    ensures s.nextEntry in end.entries && end.entries[s.nextEntry] == Entry(r.account, 1, true)
    ensures end.table == s.table[r.account := s.nextEntry] && end.log == s.log && end.stored == s.stored
    ensures end.store == s.store && end.nextGeneration == s.nextGeneration
  {
    hide Run, Inv;
    assert [Enter(tid, r), TakeGate(tid)] == [Enter(tid, r)] + [TakeGate(tid)];
    RunConcat(s, [Enter(tid, r)], [TakeGate(tid)]);
    RunOne(s, Enter(tid, r));
    var entered := Apply(s, Enter(tid, r));
    RunOne(entered, TakeGate(tid));
    end := Apply(entered, TakeGate(tid));
  }

  lemma Exchanges(s: State, tid: Tid, e: EntryId, r: Request, now: int, expiresAt: int)
    requires CallerOf(s, tid) == Holding(e, r)
    requires r.account in s.store && NeedsRefresh(r, s.store[r.account], now)
    ensures var t := s.store[r.account];
            var end := Run(s, [Decide(tid, now, false), Store(tid, expiresAt)]);
            && CallerOf(end, tid) == Finished(e, r, Got(s.nextGeneration))
            && end.log == s.log + [UpstreamCall(r, t.generation, StillValid(t, now))]
            && end.stored == s.stored + [StoredRefresh(r.account, t.generation, s.nextGeneration)]
            && end.store == s.store[r.account := Token(s.nextGeneration, expiresAt)]
            && end.table == s.table && end.entries == s.entries
  {
    hide Run;
    var decide, store := Decide(tid, now, false), Store(tid, expiresAt);
    assert [decide, store] == [decide] + [store];
    RunConcat(s, [decide], [store]);
    RunOne(s, decide);
    RunOne(Apply(s, decide), store);
  }

  lemma LeavesAlone(s: State, tid: Tid, e: EntryId, r: Request)
    requires CallerOf(s, tid).Finished? && CallerOf(s, tid).entry == e
    requires e in s.entries && s.entries[e].refs == 1 && s.entries[e].account == r.account
    ensures var end := Run(s, [LeaveGate(tid), ReleaseRef(tid)]);
            && CallerOf(end, tid) == Idle && end.table == s.table - {r.account}
            && end.log == s.log && end.stored == s.stored && end.store == s.store
  {
    hide Run;
    var leave, release := LeaveGate(tid), ReleaseRef(tid);
    assert [leave, release] == [leave] + [release];
    RunConcat(s, [leave], [release]);
    RunOne(s, leave);
    RunOne(Apply(s, leave), release);
  }

  // ---------------------------------------------------------------- nobody waits for ever

  /** How many steps a caller has before it at most, not counting those it waits for. */
  function StepsLeft(c: Caller): nat {
    match c
    case Idle => 0
    case Cancelling(_) => 1
    case Unlocking(_) => 1
    case Finished(_, _, _) => 2
    case Refreshing(_, _, _) => 3
    case Holding(_, _) => 4
    case Waiting(_, _) => 5
  }

  /** What a caller does next when nothing fails. */
  function Next(s: State, tid: Tid): Action {
    match CallerOf(s, tid)
    case Waiting(_, _) => TakeGate(tid)
    case Holding(_, _) => Decide(tid, 0, false)
    case Refreshing(_, _, _) => Store(tid, 0)
    case Finished(_, _, _) => LeaveGate(tid)
    case _ => ReleaseRef(tid)
  }

  /** The caller waits for a gate that is taken. */
  predicate Blocked(s: State, tid: Tid) {
    var c := CallerOf(s, tid);
    c.Waiting? && c.entry in s.entries && s.entries[c.entry].full
  }

  lemma NextIsEnabled(s: State, tid: Tid)
    requires Inv(s) && !CallerOf(s, tid).Idle? && !Blocked(s, tid)
    ensures Enabled(s, Next(s, tid))
    ensures var s' := Apply(s, Next(s, tid));
            && StepsLeft(CallerOf(s', tid)) < StepsLeft(CallerOf(s, tid))
            && forall u :: u != tid ==> CallerOf(s', u) == CallerOf(s, u)
  {
    hide TableIsLive, GatesAreHeld, EntriesMatch, RefreshesAreSound, Referrers;
  }

  /** Behind a taken gate is a caller that is not itself waiting. */
  lemma BlockedByHolder(s: State, tid: Tid) returns (holder: Tid)
    requires Inv(s) && Blocked(s, tid)
    ensures holder != tid && HasGate(CallerOf(s, holder)) && !Blocked(s, holder) && !CallerOf(s, holder).Idle?
    ensures CallerOf(s, tid).Waiting? && CallerOf(s, holder).entry == CallerOf(s, tid).entry
  {
    hide RefsAreCounted, TableIsLive, EntriesMatch, RefreshesAreSound;
    var e := CallerOf(s, tid).entry;
    holder :| holder in s.callers && HasGate(s.callers[holder]) && s.callers[holder].entry == e;
  }

  /** An action of a caller under way that neither gives up nor fails. */
  predicate GoesOn(a: Action) {
    a.TakeGate? || a.LeaveGate? || a.ReleaseRef? || a.Store? || (a.Decide? && !a.gone)
  }

  /**
   From every state of every run, every caller under way can be brought to return by letting callers go on,
   without anyone giving up or failing: no schedule can lock one out.
   */
  lemma EveryCallerCanReturn(s0: State, before: seq<Action>, tid: Tid) returns (rest: seq<Action>)
    requires Initial(s0)
    ensures CallerOf(Run(s0, before + rest), tid).Idle?
    ensures forall a :: a in rest ==> GoesOn(a)
  {
    EveryRunIsExclusive(s0, before);
    hide Inv, GoesOn;
    rest := BringHome(Run(s0, before), tid);
    RunConcat(s0, before, rest);
  }

  lemma {:induction false} BringHome(s: State, tid: Tid) returns (rest: seq<Action>)
    requires Inv(s)
    ensures CallerOf(Run(s, rest), tid).Idle?
    ensures forall a :: a in rest ==> GoesOn(a)
    decreases StepsLeft(CallerOf(s, tid))
  {
    hide Inv, Enabled, Apply, Blocked, GoesOn, StepsLeft;
    if CallerOf(s, tid).Idle? {
      rest := [];
    } else {
      var now, first := s, [];
      if Blocked(s, tid) {
        var holder := BlockedByHolder(s, tid);
        first := FreeGate(s, tid, holder);
        now := Run(s, first);
      }
      var next := Next(now, tid);
      NextIsEnabled(now, tid);
      NextGoesOn(now, tid);
      ActionKeepsInv(now, next);
      var others := BringHome(Apply(now, next), tid);
      rest := first + ([next] + others);
      RunConcat(s, first, [next] + others);
      RunConcat(now, [next], others);
      RunOne(now, next);
    }
  }

  lemma NextGoesOn(s: State, tid: Tid)
    ensures GoesOn(Next(s, tid))
  {
  }

  /** The holder of a gate goes on until it leaves it, while a caller waits. */
  lemma {:induction false} FreeGate(s: State, tid: Tid, holder: Tid) returns (rest: seq<Action>)
    requires Inv(s) && HasGate(CallerOf(s, holder)) && CallerOf(s, tid).Waiting?
    requires CallerOf(s, holder).entry == CallerOf(s, tid).entry
    ensures var end := Run(s, rest);
            Inv(end) && CallerOf(end, tid) == CallerOf(s, tid) && !Blocked(end, tid)
    ensures forall a :: a in rest ==> GoesOn(a)
    decreases StepsLeft(CallerOf(s, holder))
  {
    hide Inv, Enabled, Apply, GoesOn, Run;
    var next := Next(s, holder);
    NextIsEnabled(s, holder);
    NextGoesOn(s, holder);
    ActionKeepsInv(s, next);
    RunOne(s, next);
    var s' := Apply(s, next);
    HolderGoesOn(s, holder);
    if HasGate(CallerOf(s', holder)) {
      var others := FreeGate(s', tid, holder);
      rest := [next] + others;
      RunConcat(s, [next], others);
    } else {
      rest := [next];
    }
  }

  /** Its next step keeps the gate, or leaves it free. */
  lemma HolderGoesOn(s: State, holder: Tid)
    requires Inv(s) && HasGate(CallerOf(s, holder)) && Enabled(s, Next(s, holder))
    ensures var s', e := Apply(s, Next(s, holder)), CallerOf(s, holder).entry;
            if HasGate(CallerOf(s', holder)) then CallerOf(s', holder).entry == e
            else e in s'.entries && !s'.entries[e].full
  {
    hide Inv;
  }
}
