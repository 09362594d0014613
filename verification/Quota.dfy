/**
 The usage quota of an API key (config/apikeys.go with the reservations of proxy/auth.go): a request
 reserves tokens before it starts and settles or gives them back when it ends.  Credits are reals;
 whether the configuration could be saved is a parameter of each operation.
 */
module Quota {
  import opened Text

  datatype ApiKey = ApiKey(
    id: string, enabled: bool,
    tokenLimit: int, tokensUsed: int,
    creditLimit: real, creditsUsed: real,
    requestsCount: nat)

  datatype Error = InvalidAmount | NotFound | Disabled | TokenLimitExceeded | CreditLimitExceeded | SaveFailed

  datatype Result<T> = Ok(value: T) | Err(error: Error)

  // ---------------------------------------------------------------- one key

  /** Why a key refuses a reservation, if it does. */
  function Refusal(key: ApiKey, tokens: int): Option<Error> {
    if key.creditLimit > 0.0 && key.creditsUsed >= key.creditLimit then Some(CreditLimitExceeded)
    else if !key.enabled then Some(Disabled)
    else if key.tokenLimit > 0 && key.tokensUsed + tokens > key.tokenLimit then Some(TokenLimitExceeded)
    else if key.creditLimit > 0.0 && key.creditsUsed > key.creditLimit then Some(CreditLimitExceeded)
    else None
  }

  /** A key in use takes a reservation that fits into its limit, if its credits are not used up. */
  predicate Accepts(key: ApiKey, tokens: int) {
    && key.enabled
    && (key.tokenLimit <= 0 || key.tokensUsed + tokens <= key.tokenLimit)
    && (key.creditLimit <= 0.0 || key.creditsUsed < key.creditLimit)
  }

  function AtLeastZero(x: int): int {
    if x < 0 then 0 else x
  }

  function RealAtLeastZero(x: real): real {
    if x < 0.0 then 0.0 else x
  }

  function ReleaseKey(key: ApiKey, tokens: int, credits: real): ApiKey {
    key.(tokensUsed := AtLeastZero(key.tokensUsed - tokens), creditsUsed := RealAtLeastZero(key.creditsUsed - credits))
  }

  /** Settling replaces what was reserved by what was used, and disables a key that has reached a limit. */
  function FinalizeKey(key: ApiKey, reservedTokens: int, reservedCredits: real, actualTokens: int,
                       actualCredits: real): ApiKey {
    var tokens := AtLeastZero(key.tokensUsed + (actualTokens - reservedTokens));
    var credits := RealAtLeastZero(key.creditsUsed + (actualCredits - reservedCredits));
    var over := (key.tokenLimit > 0 && tokens >= key.tokenLimit)
        || (key.creditLimit > 0.0 && credits >= key.creditLimit);
    key.(tokensUsed := tokens, creditsUsed := credits,
         enabled := key.enabled && !over, requestsCount := key.requestsCount + 1)
  }

  // ---------------------------------------------------------------- the keys of the configuration

  predicate IsFirst(keys: seq<ApiKey>, id: string, i: int) {
    0 <= i < |keys| && keys[i].id == id && forall j :: 0 <= j < i ==> keys[j].id != id
  }

  class KeyStore {
    var keys: seq<ApiKey>

    constructor (keys: seq<ApiKey>)
      ensures this.keys == keys
    {
      this.keys := keys;
    }

    method Find(id: string) returns (i: int)
      ensures i == -1 ==> forall j :: 0 <= j < |keys| ==> keys[j].id != id
      ensures i != -1 ==> IsFirst(keys, id, i)
    {
      i := 0;
      while i < |keys|
        invariant 0 <= i <= |keys|
        invariant forall j :: 0 <= j < i ==> keys[j].id != id
      {
        if keys[i].id == id { return; }
        i := i + 1;
      }
      i := -1;
    }

    /** Reserves tokens on a key; a reservation that cannot be saved is taken back. */
    method ReserveApiKeyRequestUsage(id: string, tokens: int, saved: bool) returns (r: Result<real>)
      modifies this
      ensures tokens < 0 ==> r == Err(InvalidAmount)
      ensures r.Err? ==> keys == old(keys)
      ensures r.Ok? ==> r.value == 0.0 && saved && tokens >= 0
      ensures r == Err(NotFound) <==> tokens >= 0 && forall j :: 0 <= j < |old(keys)| ==> old(keys)[j].id != id
      ensures forall i :: tokens >= 0 && IsFirst(old(keys), id, i) ==>
                var key := old(keys)[i];
                && (r.Ok? <==> Refusal(key, tokens).None? && saved)
                && (r.Err? ==> r.error == if Refusal(key, tokens).Some? then Refusal(key, tokens).value else SaveFailed)
                && (r.Ok? ==> keys == old(keys)[i := key.(tokensUsed := key.tokensUsed + tokens)])
    {
      if tokens < 0 { return Err(InvalidAmount); }
      var i := Find(id);
      if i == -1 { return Err(NotFound); }
      var credits := 0.0;
      if keys[i].creditLimit > 0.0 && keys[i].creditsUsed >= keys[i].creditLimit { return Err(CreditLimitExceeded); }
      var e := ReserveAtIndex(i, tokens, credits, saved);
      r := if e.Some? then Err(e.value) else Ok(credits);
    }

    method ReserveAtIndex(i: nat, tokens: int, credits: real, saved: bool) returns (e: Option<Error>)
      requires i < |keys|
      modifies this
      ensures var key := old(keys)[i];
              && (e == Some(Disabled) <==> !key.enabled)
              && (e == Some(TokenLimitExceeded) <==>
                  key.enabled && key.tokenLimit > 0 && key.tokensUsed + tokens > key.tokenLimit)
              && (e.None? ==> key.creditLimit <= 0.0 || key.creditsUsed + credits <= key.creditLimit)
              && (e == Some(CreditLimitExceeded) ==>
                  key.creditLimit > 0.0 && key.creditsUsed + credits > key.creditLimit)
              && (e == Some(SaveFailed) ==> !saved) && (e.None? ==> saved)
              && (e.Some? ==> keys == old(keys) && e.value in {Disabled, TokenLimitExceeded, CreditLimitExceeded,
                                                               SaveFailed})
              && (e.None? ==>
                    keys == old(keys)[i := key.(tokensUsed := key.tokensUsed + tokens,
                                                creditsUsed := key.creditsUsed + credits)])
    {
      if !keys[i].enabled { return Some(Disabled); }
      if keys[i].tokenLimit > 0 && keys[i].tokensUsed + tokens > keys[i].tokenLimit { return Some(TokenLimitExceeded); }
      if keys[i].creditLimit > 0.0 && keys[i].creditsUsed + credits > keys[i].creditLimit {
        return Some(CreditLimitExceeded);
      }
      var used := keys[i];
      keys := keys[i := used.(tokensUsed := used.tokensUsed + tokens, creditsUsed := used.creditsUsed + credits)];
      if !saved {
        used := keys[i];
        keys := keys[i := used.(tokensUsed := used.tokensUsed - tokens, creditsUsed := used.creditsUsed - credits)];
        return Some(SaveFailed);
      }
      return None;
    }

    /** The change in memory stands even when it cannot be saved. */
    method ReleaseReservation(id: string, tokens: int, credits: real, saved: bool) returns (e: Option<Error>)
      modifies this
      ensures tokens < 0 || credits < 0.0 ==> keys == old(keys) && e == Some(InvalidAmount)
      ensures (forall j :: 0 <= j < |old(keys)| ==> old(keys)[j].id != id) ==> keys == old(keys)
      ensures forall i :: tokens >= 0 && credits >= 0.0 && IsFirst(old(keys), id, i) ==>
                && keys == old(keys)[i := ReleaseKey(old(keys)[i], tokens, credits)]
                && e == if saved then None else Some(SaveFailed)
    {
      if tokens < 0 || credits < 0.0 { return Some(InvalidAmount); }
      var i := Find(id);
      if i == -1 { return Some(NotFound); }
      keys := keys[i := ReleaseKey(keys[i], tokens, credits)];
      e := if saved then None else Some(SaveFailed);
    }

    method FinalizeReservation(id: string, reservedTokens: int, reservedCredits: real, actualTokens: int,
                               actualCredits: real, saved: bool)
        returns (e: Option<Error>)
      modifies this
      ensures reservedTokens < 0 || reservedCredits < 0.0 || actualTokens < 0 || actualCredits < 0.0 ==>
                keys == old(keys) && e == Some(InvalidAmount)
      ensures (forall j :: 0 <= j < |old(keys)| ==> old(keys)[j].id != id) ==> keys == old(keys)
      ensures forall i :: (reservedTokens >= 0 && reservedCredits >= 0.0 && actualTokens >= 0 && actualCredits >= 0.0
                           && IsFirst(old(keys), id, i)) ==>
                && keys == old(keys)[i := FinalizeKey(old(keys)[i], reservedTokens, reservedCredits, actualTokens,
                                                      actualCredits)]
                && e == if saved then None else Some(SaveFailed)
    {
      if reservedTokens < 0 || reservedCredits < 0.0 || actualTokens < 0 || actualCredits < 0.0 {
        return Some(InvalidAmount);
      }
      var i := Find(id);
      if i == -1 { return Some(NotFound); }
      keys := keys[i := FinalizeKey(keys[i], reservedTokens, reservedCredits, actualTokens, actualCredits)];
      e := if saved then None else Some(SaveFailed);
    }
  }

  /** The reservation one request carries; `done` lets it be settled or released once only. */
  class Reservation {
    const id: string
    const reservedTokens: int
    const reservedCredits: real
    var done: bool

    constructor (id: string, reservedTokens: int, reservedCredits: real)
      ensures this.id == id && this.reservedTokens == reservedTokens && this.reservedCredits == reservedCredits && !done
    {
      this.id, this.reservedTokens, this.reservedCredits, this.done := id, reservedTokens, reservedCredits, false;
    }

    method Release(store: KeyStore, saved: bool)
      modifies this, store
      ensures done || id == ""
      ensures old(done) || id == "" ==> store.keys == old(store.keys) && done == old(done)
      ensures forall i :: (!old(done) && id != "" && reservedTokens >= 0 && reservedCredits >= 0.0
                           && IsFirst(old(store.keys), id, i)) ==>
                store.keys == old(store.keys)[i := ReleaseKey(old(store.keys)[i], reservedTokens, reservedCredits)]
    {
      if done || id == "" { return; }
      var _ := store.ReleaseReservation(id, reservedTokens, reservedCredits, saved);
      done := true;
    }

    method Finalize(store: KeyStore, actualTokens: int, actualCredits: real, saved: bool) returns (e: Option<Error>)
      modifies this, store
      ensures done || id == ""
      ensures old(done) || id == "" ==> store.keys == old(store.keys) && done == old(done) && e == None
      ensures actualTokens < 0 || actualCredits < 0.0 ==> store.keys == old(store.keys)
      ensures forall i :: (!old(done) && id != "" && reservedTokens >= 0 && reservedCredits >= 0.0
                           && actualTokens >= 0 && actualCredits >= 0.0 && IsFirst(old(store.keys), id, i)) ==>
                store.keys == old(store.keys)[i := FinalizeKey(old(store.keys)[i], reservedTokens, reservedCredits,
                                                               actualTokens, actualCredits)]
    {
      if done || id == "" { return None; }
      done := true;
      e := store.FinalizeReservation(id, reservedTokens, reservedCredits, actualTokens, actualCredits, saved);
    }
  }

  /** reserveApiKeyUsage: at least one token; a request without a key reserves nothing. */
  method ReserveApiKeyUsage(store: KeyStore, id: string, tokenBudget: int, saved: bool)
      returns (r: Result<Option<Reservation>>)
    modifies store
    ensures id == "" ==> r == Ok(None) && store.keys == old(store.keys)
    ensures r.Err? ==> store.keys == old(store.keys)
    ensures id != "" && r.Ok? ==>
              && r.value.Some? && fresh(r.value.value) && !r.value.value.done && r.value.value.id == id
              && r.value.value.reservedTokens == (if tokenBudget < 1 then 1 else tokenBudget)
                  && r.value.value.reservedCredits == 0.0
    ensures forall i :: id != "" && IsFirst(old(store.keys), id, i) ==>
              var key, tokens := old(store.keys)[i], if tokenBudget < 1 then 1 else tokenBudget;
              && (r.Ok? <==> saved && Accepts(key, tokens))
              && (r.Ok? ==> store.keys == old(store.keys)[i := key.(tokensUsed := key.tokensUsed + tokens)])
  {
    if id == "" { return Ok(None); }
    var tokens := if tokenBudget < 1 then 1 else tokenBudget;
    var credits := store.ReserveApiKeyRequestUsage(id, tokens, saved);
    if credits.Err? { return Err(credits.error); }
    var reservation := new Reservation(id, tokens, credits.value);
    return Ok(Some(reservation));
  }

  // ---------------------------------------------------------------- the ledger of one key

  /**
   What became of a reservation.  Stuck: finalized with a negative amount, which is refused after
   the reservation was marked done, so its tokens stay taken.
   */
  datatype Status = Outstanding | Released | Settled(tokens: int, credits: real) | Stuck

  datatype Entry = Entry(tokens: int, status: Status)

  /** A key and all reservations ever made on it, in order. */
  datatype Ledger = Ledger(key: ApiKey, entries: seq<Entry>)

  /** What requests sharing the key do, in any order: entry numbers that do not exist yet are no-ops. */
  datatype Op =
    | Reserve(tokenBudget: int, saved: bool)
    | Finalize(n: nat, tokens: int, credits: real)
    | Release(n: nat)

  function Step(l: Ledger, op: Op): Ledger {
    match op
    case Reserve(budget, saved) =>
      var tokens := if budget < 1 then 1 else budget;
      if Refusal(l.key, tokens).Some? || !saved then l
      else Ledger(l.key.(tokensUsed := l.key.tokensUsed + tokens), l.entries + [Entry(tokens, Outstanding)])
    case Finalize(n, tokens, credits) =>
      if n >= |l.entries| || l.entries[n].status != Outstanding then l
      else if tokens < 0 || credits < 0.0 then l.(entries := l.entries[n := l.entries[n].(status := Stuck)])
      else
        Ledger(FinalizeKey(l.key, l.entries[n].tokens, 0.0, tokens, credits),
               l.entries[n := l.entries[n].(status := Settled(tokens, credits))])
    case Release(n) =>
      if n >= |l.entries| || l.entries[n].status != Outstanding then l
      else Ledger(ReleaseKey(l.key, l.entries[n].tokens, 0.0), l.entries[n := l.entries[n].(status := Released)])
  }

  function Run(l: Ledger, ops: seq<Op>): Ledger {
    if ops == [] then l else Step(Run(l, ops[..|ops| - 1]), ops[|ops| - 1])
  }

  /** The tokens and credits an entry stands for now. */
  function Tokens(e: Entry): int {
    match e.status
    case Released => 0
    case Settled(tokens, _) => tokens
    case _ => e.tokens
  }

  function Credits(e: Entry): real {
    if e.status.Settled? then e.status.credits else 0.0
  }

  function TokenSum(es: seq<Entry>): int {
    if es == [] then 0 else Tokens(es[0]) + TokenSum(es[1..])
  }

  function CreditSum(es: seq<Entry>): real {
    if es == [] then 0.0 else Credits(es[0]) + CreditSum(es[1..])
  }

  ghost predicate ValidEntry(e: Entry) {
    e.tokens >= 1 && (e.status.Settled? ==> e.status.tokens >= 0 && e.status.credits >= 0.0)
  }

  /** The counters are the usage before the ledger began plus what its entries stand for. */
  ghost predicate Balanced(l: Ledger, startTokens: int, startCredits: real) {
    && (forall i :: 0 <= i < |l.entries| ==> ValidEntry(l.entries[i]))
    && l.key.tokensUsed == startTokens + TokenSum(l.entries)
    && l.key.creditsUsed == startCredits + CreditSum(l.entries)
  }

  lemma {:induction false} SumsAfterUpdate(es: seq<Entry>, n: nat, e: Entry)
    requires n < |es|
    ensures TokenSum(es[n := e]) == TokenSum(es) - Tokens(es[n]) + Tokens(e)
    ensures CreditSum(es[n := e]) == CreditSum(es) - Credits(es[n]) + Credits(e)
  {
    if n > 0 {
      SumsAfterUpdate(es[1..], n - 1, e);
      assert es[n := e][1..] == es[1..][n - 1 := e];
    } else {
      assert es[n := e][1..] == es[1..];
    }
  }

  lemma {:induction false} SumsAfterAppend(es: seq<Entry>, e: Entry)
    ensures TokenSum(es + [e]) == TokenSum(es) + Tokens(e)
    ensures CreditSum(es + [e]) == CreditSum(es) + Credits(e)
  {
    if es == [] {
      assert es + [e] == [e] && [e][1..] == [];
    } else {
      SumsAfterAppend(es[1..], e);
      assert (es + [e])[1..] == es[1..] + [e];
    }
  }

  lemma {:induction false} SumsCover(es: seq<Entry>)
    requires forall i :: 0 <= i < |es| ==> ValidEntry(es[i])
    ensures TokenSum(es) >= 0 && CreditSum(es) >= 0.0
    ensures forall i :: 0 <= i < |es| ==> TokenSum(es) >= Tokens(es[i])
  {
    if es != [] {
      SumsCover(es[1..]);
      assert forall i :: 1 <= i < |es| ==> es[i] == es[1..][i - 1];
    }
  }

  /** Every step keeps the balance, and the clamps at zero change nothing. */
  lemma StepKeepsBalance(l: Ledger, op: Op, startTokens: int, startCredits: real)
    requires Balanced(l, startTokens, startCredits) && startTokens >= 0 && startCredits >= 0.0
    ensures Balanced(Step(l, op), startTokens, startCredits)
  {
    SumsCover(l.entries);
    match op
    case Reserve(budget, saved) =>
      SumsAfterAppend(l.entries, Entry(if budget < 1 then 1 else budget, Outstanding));
    case Finalize(n, tokens, credits) =>
      if n < |l.entries| && l.entries[n].status == Outstanding {
        var status := if tokens < 0 || credits < 0.0 then Stuck else Settled(tokens, credits);
        SumsAfterUpdate(l.entries, n, l.entries[n].(status := status));
      }
    case Release(n) =>
      if n < |l.entries| && l.entries[n].status == Outstanding {
        SumsAfterUpdate(l.entries, n, l.entries[n].(status := Released));
      }
  }

  /** In any interleaving the counters equal what was used before plus settled usage plus what is still reserved. */
  lemma {:induction false} LedgerBalances(key: ApiKey, ops: seq<Op>)
    requires key.tokensUsed >= 0 && key.creditsUsed >= 0.0
    ensures Balanced(Run(Ledger(key, []), ops), key.tokensUsed, key.creditsUsed)
    ensures Run(Ledger(key, []), ops).key.tokensUsed >= key.tokensUsed
    decreases |ops|
  {
    hide Step, Refusal;
    if ops != [] {
      LedgerBalances(key, ops[..|ops| - 1]);
      StepKeepsBalance(Run(Ledger(key, []), ops[..|ops| - 1]), ops[|ops| - 1], key.tokensUsed, key.creditsUsed);
    }
    SumsCover(Run(Ledger(key, []), ops).entries);
  }

  /** Giving back an outstanding reservation or settling it never meets the clamp at zero. */
  lemma ClampNeverFires(key: ApiKey, ops: seq<Op>, n: nat, tokens: int, credits: real)
    requires key.tokensUsed >= 0 && key.creditsUsed >= 0.0
    requires var l := Run(Ledger(key, []), ops); n < |l.entries| && l.entries[n].status == Outstanding
    requires tokens >= 0 && credits >= 0.0
    ensures var l := Run(Ledger(key, []), ops);
            && Step(l, Release(n)).key.tokensUsed == l.key.tokensUsed - l.entries[n].tokens
            && Step(l, Finalize(n, tokens, credits)).key.tokensUsed == l.key.tokensUsed - l.entries[n].tokens + tokens
            && Step(l, Finalize(n, tokens, credits)).key.creditsUsed == l.key.creditsUsed + credits
  {
    hide Run;
    LedgerBalances(key, ops);
    SumsCover(Run(Ledger(key, []), ops).entries);
  }

  /** A reservation that is no longer outstanding is never touched again. */
  lemma {:induction false} SettlesOnce(l: Ledger, ops: seq<Op>, n: nat)
    requires n < |l.entries|
    ensures n < |Run(l, ops).entries|
    ensures l.entries[n].status != Outstanding ==> Run(l, ops).entries[n] == l.entries[n]
    decreases |ops|
  {
    hide Step;
    if ops != [] {
      SettlesOnce(l, ops[..|ops| - 1], n);
      StepLeavesEnded(Run(l, ops[..|ops| - 1]), ops[|ops| - 1], n);
    }
  }

  lemma StepLeavesEnded(l: Ledger, op: Op, n: nat)
    requires n < |l.entries|
    ensures n < |Step(l, op).entries|
    ensures l.entries[n].status != Outstanding ==> Step(l, op).entries[n] == l.entries[n]
  {
  }

  /** A key in use is within its limits; a disabled one is not asked. */
  predicate WithinLimits(key: ApiKey) {
    key.enabled ==>
      && (key.tokenLimit > 0 ==> key.tokensUsed <= key.tokenLimit)
      && (key.creditLimit > 0.0 ==> key.creditsUsed <= key.creditLimit)
  }

  /**
   In every run an enabled key is within its limits, whatever was reported above what was reserved: the
   settlement that reaches a limit disables the key, and nothing here enables it again.
   */
  lemma {:induction false} EnabledMeansWithinLimits(key: ApiKey, ops: seq<Op>)
    requires key.tokensUsed >= 0 && key.creditsUsed >= 0.0 && WithinLimits(key)
    ensures var after := Run(Ledger(key, []), ops).key;
            && WithinLimits(after) && (after.enabled ==> key.enabled)
            && after.tokenLimit == key.tokenLimit && after.creditLimit == key.creditLimit
    decreases |ops|
  {
    if ops != [] {
      var init := ops[..|ops| - 1];
      EnabledMeansWithinLimits(key, init);
      LedgerBalances(key, init);
      StepKeepsLimits(Run(Ledger(key, []), init), ops[|ops| - 1]);
    }
  }

  lemma StepKeepsLimits(l: Ledger, op: Op)
    requires WithinLimits(l.key) && l.key.tokensUsed >= 0
    requires forall i :: 0 <= i < |l.entries| ==> ValidEntry(l.entries[i])
    ensures var key := Step(l, op).key;
            && WithinLimits(key) && (key.enabled ==> l.key.enabled)
            && key.tokenLimit == l.key.tokenLimit && key.creditLimit == l.key.creditLimit
  {
  }

  /** The k-th operation settles an outstanding reservation with what was used. */
  ghost predicate Settles(key: ApiKey, ops: seq<Op>, k: nat)
    requires k < |ops|
  {
    && ops[k].Finalize? && ops[k].tokens >= 0 && ops[k].credits >= 0.0
    && var es := Run(Ledger(key, []), ops[..k]).entries;
       ops[k].n < |es| && es[ops[k].n].status == Outstanding
  }

  predicate AtLimit(key: ApiKey) {
    (0 < key.tokenLimit <= key.tokensUsed) || (0.0 < key.creditLimit <= key.creditsUsed)
  }

  /** The k-th operation is a settlement after which a limit is reached. */
  ghost predicate SettlesAtLimit(key: ApiKey, ops: seq<Op>, k: nat)
    requires k < |ops|
  {
    Settles(key, ops, k) && AtLimit(Run(Ledger(key, []), ops[..k + 1]).key)
  }

  /**
   In every run a key stays in use exactly as long as no settlement reaches a limit; reserving up to a limit does
   not disable it.
   */
  lemma {:induction false} DisabledExactlyWhen(key: ApiKey, ops: seq<Op>)
    requires key.enabled
    ensures Run(Ledger(key, []), ops).key.enabled <==>
            forall k :: 0 <= k < |ops| ==> !SettlesAtLimit(key, ops, k)
    decreases |ops|
  {
    if ops != [] {
      var init, n := ops[..|ops| - 1], |ops| - 1;
      var l := Run(Ledger(key, []), init);
      DisabledExactlyWhen(key, init);
      assert ops[..n + 1] == ops;
      StepDisables(l, ops[n]);
      hide Step, AtLimit, Run;
      forall k | 0 <= k < n ensures SettlesAtLimit(key, ops, k) <==> SettlesAtLimit(key, init, k) {
        assert ops[..k] == init[..k] && ops[..k + 1] == init[..k + 1] && ops[k] == init[k];
      }
      hide SettlesAtLimit;
      RunLast(Ledger(key, []), ops);
      SettlesAtEnd(key, ops, l);
    }
  }

  lemma RunLast(l: Ledger, ops: seq<Op>)
    requires ops != []
    ensures Run(l, ops) == Step(Run(l, ops[..|ops| - 1]), ops[|ops| - 1])
  {
  }

  lemma SettlesAtEnd(key: ApiKey, ops: seq<Op>, l: Ledger)
    requires ops != [] && l == Run(Ledger(key, []), ops[..|ops| - 1])
    ensures var n := |ops| - 1;
            SettlesAtLimit(key, ops, n) <==>
              && ops[n].Finalize? && ops[n].tokens >= 0 && ops[n].credits >= 0.0
              && ops[n].n < |l.entries| && l.entries[ops[n].n].status == Outstanding && AtLimit(Step(l, ops[n]).key)
  {
    RunLast(Ledger(key, []), ops);
    assert ops[..|ops|] == ops;
    hide Run, Step, AtLimit;
  }

  lemma StepDisables(l: Ledger, op: Op)
    ensures Step(l, op).key.enabled <==>
              && l.key.enabled
              && !(op.Finalize? && op.tokens >= 0 && op.credits >= 0.0 && op.n < |l.entries|
                   && l.entries[op.n].status == Outstanding && AtLimit(Step(l, op).key))
  {
  }

  function SettledCount(es: seq<Entry>): nat {
    if es == [] then 0 else (if es[0].status.Settled? then 1 else 0) + SettledCount(es[1..])
  }

  /** In every run a key has counted each settled reservation as one request, and nothing else. */
  lemma {:induction false} RequestsAreCounted(key: ApiKey, ops: seq<Op>)
    ensures var l := Run(Ledger(key, []), ops);
            l.key.requestsCount == key.requestsCount + SettledCount(l.entries)
    decreases |ops|
  {
    if ops != [] {
      RequestsAreCounted(key, ops[..|ops| - 1]);
      StepCounts(Run(Ledger(key, []), ops[..|ops| - 1]), ops[|ops| - 1]);
      hide Step;
    }
  }

  lemma StepCounts(l: Ledger, op: Op)
    ensures var after := Step(l, op);
            after.key.requestsCount - l.key.requestsCount == SettledCount(after.entries) - SettledCount(l.entries)
  {
    match op
    case Reserve(budget, saved) =>
      CountAfterAppend(l.entries, Entry(if budget < 1 then 1 else budget, Outstanding));
    case Finalize(n, tokens, credits) =>
      if n < |l.entries| && l.entries[n].status == Outstanding {
        CountAfterUpdate(l.entries, n, l.entries[n].(status := if tokens < 0 || credits < 0.0 then Stuck
                                                                else Settled(tokens, credits)));
      }
    case Release(n) =>
      if n < |l.entries| && l.entries[n].status == Outstanding {
        CountAfterUpdate(l.entries, n, l.entries[n].(status := Released));
      }
  }

  lemma {:induction false} CountAfterAppend(es: seq<Entry>, e: Entry)
    ensures SettledCount(es + [e]) == SettledCount(es) + if e.status.Settled? then 1 else 0
  {
    if es == [] {
      assert es + [e] == [e] && [e][1..] == [];
    } else {
      CountAfterAppend(es[1..], e);
      assert (es + [e])[1..] == es[1..] + [e];
    }
  }

  lemma {:induction false} CountAfterUpdate(es: seq<Entry>, n: nat, e: Entry)
    requires n < |es| && !es[n].status.Settled?
    ensures SettledCount(es[n := e]) == SettledCount(es) + if e.status.Settled? then 1 else 0
  {
    if n > 0 {
      CountAfterUpdate(es[1..], n - 1, e);
      assert es[n := e][1..] == es[1..][n - 1 := e];
    } else {
      assert es[n := e][1..] == es[1..];
    }
  }

  /** The k-th operation settles an outstanding reservation with a negative amount. */
  ghost predicate SettlesNegative(key: ApiKey, ops: seq<Op>, k: nat)
    requires k < |ops|
  {
    && ops[k].Finalize? && (ops[k].tokens < 0 || ops[k].credits < 0.0)
    && var es := Run(Ledger(key, []), ops[..k]).entries;
       ops[k].n < |es| && es[ops[k].n].status == Outstanding
  }

  ghost predicate NoneSettlesNegative(key: ApiKey, ops: seq<Op>) {
    forall k :: 0 <= k < |ops| ==> !SettlesNegative(key, ops, k)
  }

  predicate NoneStuck(es: seq<Entry>) {
    forall i :: 0 <= i < |es| ==> es[i].status != Stuck
  }

  /** Nothing else leaves a reservation stuck, and a stuck one stays so. */
  lemma {:induction false} StuckExactlyWhen(key: ApiKey, ops: seq<Op>)
    ensures NoneStuck(Run(Ledger(key, []), ops).entries) <==> NoneSettlesNegative(key, ops)
    decreases |ops|
  {
    if ops != [] {
      var init, n := ops[..|ops| - 1], |ops| - 1;
      var l := Run(Ledger(key, []), init);
      StuckExactlyWhen(key, init);
      StepSticks(l, ops[n]);
      NoneSettlesBefore(key, ops);
      hide Step, NoneSettlesNegative, NoneStuck;
    }
  }

  lemma NoneSettlesBefore(key: ApiKey, ops: seq<Op>)
    requires ops != []
    ensures var init, n := ops[..|ops| - 1], |ops| - 1;
            NoneSettlesNegative(key, ops) <==> NoneSettlesNegative(key, init) && !SettlesNegative(key, ops, n)
  {
    hide Run;
    var init, n := ops[..|ops| - 1], |ops| - 1;
    forall k | 0 <= k < n ensures SettlesNegative(key, ops, k) <==> SettlesNegative(key, init, k) {
      assert ops[..k] == init[..k] && ops[k] == init[k];
    }
    hide SettlesNegative;
    if NoneSettlesNegative(key, init) && !SettlesNegative(key, ops, n) {
      forall k | 0 <= k < |ops| ensures !SettlesNegative(key, ops, k) {
        if k < n { assert !SettlesNegative(key, init, k); }
      }
    }
  }

  lemma StepSticks(l: Ledger, op: Op)
    ensures NoneStuck(Step(l, op).entries) <==>
              && NoneStuck(l.entries)
              && !(op.Finalize? && (op.tokens < 0 || op.credits < 0.0) && op.n < |l.entries|
                   && l.entries[op.n].status == Outstanding)
  {
    var after := Step(l, op).entries;
    forall i | 0 <= i < |l.entries| && l.entries[i].status == Stuck ensures after[i].status == Stuck { }
    if op.Finalize? && op.n < |l.entries| { assert after[op.n] == after[op.n]; }
  }

  /**
   In every run the counter shows the usage before it, what was reported and what is still reserved,
   exactly if no outstanding reservation is settled with a negative amount: those keep their tokens for good.
   */
  lemma CounterIsActualUsage(key: ApiKey, ops: seq<Op>)
    requires key.tokensUsed >= 0 && key.creditsUsed >= 0.0
    ensures var l := Run(Ledger(key, []), ops);
            var expected := key.tokensUsed + SettledSum(l.entries) + OutstandingSum(l.entries);
            && l.key.tokensUsed >= expected
            && (l.key.tokensUsed == expected <==> NoneSettlesNegative(key, ops))
  {
    hide Run, NoneSettlesNegative;
    LedgerBalances(key, ops);
    StuckExactlyWhen(key, ops);
    SumsByStatus(Run(Ledger(key, []), ops).entries);
  }

  /** One token reserved and then settled as minus one: it stays on the counter with nothing to show for it. */
  lemma NegativeSettlementIsKept(key: ApiKey)
    requires key.tokensUsed >= 0 && key.creditsUsed >= 0.0 && Refusal(key, 1).None?
    ensures var l := Run(Ledger(key, []), [Reserve(1, true), Finalize(0, -1, 0.0)]);
            && l.key.tokensUsed == key.tokensUsed + 1
            && SettledSum(l.entries) == 0 && OutstandingSum(l.entries) == 0
  {
    var ops := [Reserve(1, true), Finalize(0, -1, 0.0)];
    var start := Ledger(key, []);
    assert ops[..1] == [ops[0]] && ops[..1][..0] == [];
    assert Run(start, ops[..1]) == Step(start, ops[0]);
    assert Run(start, ops).entries == [Entry(1, Stuck)];
  }

  lemma {:induction false} SumsByStatus(es: seq<Entry>)
    requires forall i :: 0 <= i < |es| ==> ValidEntry(es[i])
    ensures TokenSum(es) >= SettledSum(es) + OutstandingSum(es)
    ensures TokenSum(es) == SettledSum(es) + OutstandingSum(es) <==> NoneStuck(es)
  {
    if es != [] {
      SumsByStatus(es[1..]);
      assert forall i :: 1 <= i < |es| ==> es[i] == es[1..][i - 1];
      assert forall i :: 0 <= i < |es[1..]| ==> es[1..][i] == es[i + 1];
    }
  }

  function OutstandingSum(es: seq<Entry>): int {
    if es == [] then 0 else (if es[0].status == Outstanding then es[0].tokens else 0) + OutstandingSum(es[1..])
  }

  /**
   Once every reservation of a run has ended, the counter shows the reported usage exactly if none was
   settled with a negative amount.
   */
  lemma AllEndedMeansActualUsage(key: ApiKey, ops: seq<Op>)
    requires key.tokensUsed >= 0 && key.creditsUsed >= 0.0
    requires forall e :: e in Run(Ledger(key, []), ops).entries ==> e.status != Outstanding
    ensures var l := Run(Ledger(key, []), ops);
            && l.key.tokensUsed >= key.tokensUsed + SettledSum(l.entries)
            && (l.key.tokensUsed == key.tokensUsed + SettledSum(l.entries)
                <==> NoneSettlesNegative(key, ops))
  {
    hide Run;
    CounterIsActualUsage(key, ops);
    NothingOutstanding(Run(Ledger(key, []), ops).entries);
  }

  lemma {:induction false} NothingOutstanding(es: seq<Entry>)
    requires forall e :: e in es ==> e.status != Outstanding
    ensures OutstandingSum(es) == 0
  {
    if es != [] {
      assert es[0] in es;
      NothingOutstanding(es[1..]);
    }
  }

  function SettledSum(es: seq<Entry>): int {
    if es == [] then 0 else (if es[0].status.Settled? then es[0].status.tokens else 0) + SettledSum(es[1..])
  }

  // ---------------------------------------------------------------- the ledger and the code

  /** The reservations the requests hold, as the ledger records them. */
  ghost predicate Recorded(reservations: seq<Reservation>, id: string, entries: seq<Entry>)
    reads reservations
  {
    && |reservations| == |entries|
    && (forall k :: 0 <= k < |entries| ==> ValidEntry(entries[k]))
    && (forall k :: 0 <= k < |reservations| ==>
          && reservations[k].id == id && reservations[k].reservedCredits == 0.0
          && reservations[k].reservedTokens == entries[k].tokens
          && (reservations[k].done <==> entries[k].status != Outstanding))
    && (forall k, m :: 0 <= k < m < |reservations| ==> reservations[k] != reservations[m])
  }

  /** One operation through the code does to the key what the ledger says. */
  method Perform(store: KeyStore, id: string, i: nat, reservations: seq<Reservation>, op: Op, saved: bool,
                 ghost l: Ledger)
      returns (reservations': seq<Reservation>)
    requires id != "" && IsFirst(store.keys, id, i) && store.keys[i] == l.key
    requires Recorded(reservations, id, l.entries)
    modifies store, reservations
    ensures IsFirst(store.keys, id, i) && store.keys == old(store.keys)[i := Step(l, op).key]
    ensures Recorded(reservations', id, Step(l, op).entries)
    ensures |reservations| <= |reservations'| && forall n :: 0 <= n < |reservations'| ==>
              if n < |reservations| then reservations'[n] == reservations[n] else fresh(reservations'[n])
  {
    reservations' := reservations;
    match op
    case Reserve(budget, saved) =>
      var r := ReserveApiKeyUsage(store, id, budget, saved);
      if r.Ok? && r.value.Some? {
        reservations' := reservations + [r.value.value];
      }
    case Finalize(n, tokens, credits) =>
      if n < |reservations| {
        var _ := reservations[n].Finalize(store, tokens, credits, saved);
      }
    case Release(n) =>
      if n < |reservations| {
        reservations[n].Release(store, saved);
      }
  }

  /** Any interleaving of requests on one key, run through the code, keeps the ledger's balance. */
  method Interleave(store: KeyStore, id: string, i: nat, ops: seq<Op>, saves: nat -> bool)
    requires id != "" && IsFirst(store.keys, id, i) && store.keys[i].tokensUsed >= 0 && store.keys[i].creditsUsed >= 0.0
    modifies store
    ensures var end := Run(Ledger(old(store.keys)[i], []), ops);
            && store.keys == old(store.keys)[i := end.key]
            && Balanced(end, old(store.keys)[i].tokensUsed, old(store.keys)[i].creditsUsed)
  {
    hide Step, Balanced, Refusal;
    ghost var key, before := store.keys[i], store.keys;
    ghost var l := Ledger(key, []);
    var reservations: seq<Reservation> := [];
    var k := 0;
    assert ops[..0] == [];
    while k < |ops|
      invariant 0 <= k <= |ops|
      invariant l == Run(Ledger(key, []), ops[..k])
      invariant IsFirst(store.keys, id, i) && store.keys == before[i := l.key]
      invariant Recorded(reservations, id, l.entries)
      invariant forall n :: 0 <= n < |reservations| ==> fresh(reservations[n])
    {
      assert ops[..k + 1][..k] == ops[..k];
      reservations := Perform(store, id, i, reservations, ops[k], saves(k), l);
      l := Step(l, ops[k]);
      k := k + 1;
    }
    assert ops[..|ops|] == ops;
    LedgerBalances(key, ops);
  }
}
