/**
 The bounded retry loop over accounts (proxy/claude_websearch.go, callClaudeRoundWithFailover, with
 the retry plan of proxy/account_failover.go); the streaming handlers run the same two loops.
 */
module Failover {
  import opened Text
  import opened Rotation

  /** What the retry plan looks at in an error. */
  datatype CallError = CallError(clientError: bool, canceled: bool, integrity: bool, terminal: bool)

  datatype RetryPlan = RetryPlan(maxPerAccount: int, maxPerRequest: int) {
    predicate Valid() { maxPerAccount >= 1 && maxPerRequest >= 1 }

    predicate CanRetrySameAccount(err: CallError, accountAttempt: int, totalAttempts: int) {
      && !err.clientError
      && accountAttempt + 1 < maxPerAccount && totalAttempts < maxPerRequest && !err.canceled
      && (err.integrity || !err.terminal)
    }
  }

  function NewRequestRetryPlan(maxPerAccount: int, maxPerRequest: int): (plan: RetryPlan)
    ensures plan.Valid()
    ensures maxPerAccount >= 1 ==> plan.maxPerAccount == maxPerAccount
    ensures maxPerRequest >= 1 ==> plan.maxPerRequest == maxPerRequest
  {
    RetryPlan(if maxPerAccount < 1 then 1 else maxPerAccount, if maxPerRequest < 1 then 1 else maxPerRequest)
  }

  /** One upstream call: on which account, and how it failed if it did. */
  datatype Attempt = Attempt(account: string, error: Option<CallError>)

  /** The pool as a pick finds it: other requests and failure handling change it in between. */
  datatype World = World(accounts: seq<Account>, rota: Rota, cooldowns: map<string, nat>, preferred: string,
                         moment: Moment)

  ghost predicate ValidWorld(w: World) {
    Coherent(w.accounts) && w.rota.Valid() && w.rota.ids == Ids(w.accounts)
  }

  datatype Result = Served(account: string) | NoAccounts | Failed(account: string, error: CallError)

  function CountFor(attempts: seq<Attempt>, account: string): nat {
    if attempts == [] then 0 else (if attempts[0].account == account then 1 else 0) + CountFor(attempts[1..], account)
  }

  lemma {:induction false} CountForConcat(a: seq<Attempt>, b: seq<Attempt>, account: string)
    ensures CountFor(a + b, account) == CountFor(a, account) + CountFor(b, account)
  {
    if a == [] {
      assert a + b == b;
    } else {
      assert (a + b)[1..] == a[1..] + b;
      CountForConcat(a[1..], b, account);
    }
  }

  lemma {:induction false} CountForAbsent(attempts: seq<Attempt>, account: string)
    requires forall a :: a in attempts ==> a.account != account
    ensures CountFor(attempts, account) == 0
  {
    if attempts != [] {
      assert attempts[0] in attempts;
      CountForAbsent(attempts[1..], account);
    }
  }

  lemma {:induction false} CountForAtMost(attempts: seq<Attempt>, account: string)
    ensures CountFor(attempts, account) <= |attempts|
  {
    if attempts != [] { CountForAtMost(attempts[1..], account); }
  }

  /** The attempts on one account stand together: an account once left is not tried again. */
  ghost predicate NeverReturns(attempts: seq<Attempt>) {
    forall i, j, k :: 0 <= i < j < k < |attempts| && attempts[i].account == attempts[k].account ==>
        attempts[j].account == attempts[k].account
  }

  /** A success, a client error or a cancellation ends the request there and then. */
  ghost predicate OnlyLastIsFinal(attempts: seq<Attempt>) {
    forall i :: 0 <= i < |attempts| - 1 ==>
      attempts[i].error.Some? && !attempts[i].error.value.clientError && !attempts[i].error.value.canceled
  }

  /** An account is tried again only after an error that may pass. */
  ghost predicate RetriesArePlausible(attempts: seq<Attempt>) {
    forall i :: 0 <= i < |attempts| - 1 && attempts[i].account == attempts[i + 1].account ==>
      attempts[i].error.Some? && (attempts[i].error.value.integrity || !attempts[i].error.value.terminal)
  }

  ghost predicate CountsWithin(attempts: seq<Attempt>, most: int) {
    forall account :: CountFor(attempts, account) <= most
  }

  /** The last attempt leaves the request to go on. */
  ghost predicate GoesOn(attempts: seq<Attempt>) {
    attempts != [] ==>
      var e := attempts[|attempts| - 1].error;
      e.Some? && !e.value.clientError && !e.value.canceled
  }

  /** An account is tried again exactly when the plan allows it after that attempt, and left for good otherwise. */
  ghost predicate RetriesExactly(attempts: seq<Attempt>, plan: RetryPlan) {
    forall i :: 0 <= i < |attempts| && attempts[i].error.Some? ==>
      (MayRetry(attempts, plan, i) <==> Retried(attempts, i))
  }

  ghost predicate Retried(attempts: seq<Attempt>, i: nat)
    requires i < |attempts|
  {
    i + 1 < |attempts| && attempts[i + 1].account == attempts[i].account
  }

  ghost predicate MayRetry(attempts: seq<Attempt>, plan: RetryPlan, i: nat)
    requires i < |attempts| && attempts[i].error.Some?
  {
    plan.CanRetrySameAccount(attempts[i].error.value, CountFor(attempts[..i], attempts[i].account), i + 1)
  }

  /** The same of one account's attempts, `before` others having been made. */
  ghost predicate RoundExact(round: seq<Attempt>, plan: RetryPlan, before: nat) {
    forall i :: 0 <= i < |round| && round[i].error.Some? ==>
      (plan.CanRetrySameAccount(round[i].error.value, i, before + i + 1) <==> i + 1 < |round|)
  }

  ghost predicate Disciplined(attempts: seq<Attempt>, plan: RetryPlan) {
    && |attempts| <= plan.maxPerRequest && CountsWithin(attempts, plan.maxPerAccount)
    && NeverReturns(attempts) && OnlyLastIsFinal(attempts) && RetriesArePlausible(attempts)
  }

  /** `round` adds attempts on one new account to `before`. */
  ghost predicate NewRound(before: seq<Attempt>, round: seq<Attempt>, account: string) {
    && (forall a :: a in before ==> a.account != account)
    && (forall a :: a in round ==> a.account == account)
  }

  lemma RoundKeepsDiscipline(before: seq<Attempt>, round: seq<Attempt>, account: string, plan: RetryPlan)
    requires Disciplined(before, plan) && NewRound(before, round, account)
    requires |before| + |round| <= plan.maxPerRequest && |round| <= plan.maxPerAccount
    requires OnlyLastIsFinal(round) && RetriesArePlausible(round)
    requires GoesOn(before)
    ensures Disciplined(before + round, plan)
  {
    hide *;
    DisciplinedMeans(before, plan);
    RoundKeepsCounts(before, round, account, plan.maxPerAccount);
    RoundNeverReturns(before, round, account);
    RoundKeepsLastFinal(before, round);
    RoundStaysPlausible(before, round, account);
    MakesDisciplined(before + round, plan);
  }

  lemma DisciplinedMeans(attempts: seq<Attempt>, plan: RetryPlan)
    requires Disciplined(attempts, plan)
    ensures CountsWithin(attempts, plan.maxPerAccount)
    ensures NeverReturns(attempts) && OnlyLastIsFinal(attempts) && RetriesArePlausible(attempts)
  {
  }

  lemma MakesDisciplined(attempts: seq<Attempt>, plan: RetryPlan)
    requires |attempts| <= plan.maxPerRequest && CountsWithin(attempts, plan.maxPerAccount)
    requires NeverReturns(attempts) && OnlyLastIsFinal(attempts) && RetriesArePlausible(attempts)
    ensures Disciplined(attempts, plan)
  {
  }

  lemma RoundKeepsCounts(before: seq<Attempt>, round: seq<Attempt>, account: string, most: int)
    requires CountsWithin(before, most) && NewRound(before, round, account) && |round| <= most
    ensures CountsWithin(before + round, most)
  {
    hide CountFor;
    forall other ensures CountFor(before + round, other) <= most {
      CountForConcat(before, round, other);
      if other == account {
        CountForAbsent(before, other);
        CountForAtMost(round, other);
      } else {
        CountForAbsent(round, other);
      }
    }
  }

  lemma RoundNeverReturns(before: seq<Attempt>, round: seq<Attempt>, account: string)
    requires NeverReturns(before) && NewRound(before, round, account)
    ensures NeverReturns(before + round)
  {
    var all := before + round;
    assert forall i :: 0 <= i < |before| ==> all[i] == before[i] && before[i] in before;
    assert forall i :: |before| <= i < |all| ==> all[i] == round[i - |before|] && round[i - |before|] in round;
  }

  lemma RoundKeepsLastFinal(before: seq<Attempt>, round: seq<Attempt>)
    requires OnlyLastIsFinal(before) && OnlyLastIsFinal(round) && GoesOn(before)
    ensures OnlyLastIsFinal(before + round)
  {
    var all := before + round;
    forall i | 0 <= i < |all| - 1
      ensures all[i].error.Some? && !all[i].error.value.clientError && !all[i].error.value.canceled
    {
      if i >= |before| { assert all[i] == round[i - |before|]; }
    }
  }

  lemma RoundStaysPlausible(before: seq<Attempt>, round: seq<Attempt>, account: string)
    requires RetriesArePlausible(before) && RetriesArePlausible(round) && NewRound(before, round, account)
    ensures RetriesArePlausible(before + round)
  {
    var all := before + round;
    assert forall i :: 0 <= i < |before| ==> all[i] == before[i] && before[i] in before;
    assert forall i :: |before| <= i < |all| ==> all[i] == round[i - |before|] && round[i - |before|] in round;
    forall i | 0 <= i < |all| - 1 && all[i].account == all[i + 1].account
      ensures all[i].error.Some? && (all[i].error.value.integrity || !all[i].error.value.terminal)
    {
      if i >= |before| { assert all[i + 1] == round[i - |before| + 1]; }
    }
  }

  /** A round's own rule is the rule for all attempts, and the account before it was left for good. */
  lemma RoundStaysExact(before: seq<Attempt>, round: seq<Attempt>, account: string, plan: RetryPlan)
    requires RetriesExactly(before, plan) && RoundExact(round, plan, |before|) && NewRound(before, round, account)
    ensures RetriesExactly(before + round, plan)
  {
    hide MayRetry, RoundExact, NewRound;
    var all := before + round;
    forall i | 0 <= i < |all| && all[i].error.Some?
      ensures MayRetry(all, plan, i) <==> Retried(all, i)
    {
      if i < |before| {
        assert all[i] == before[i];
        OldAttemptExact(before, round, account, plan, i);
      } else {
        assert all[i] == round[i - |before|];
        NewAttemptExact(before, round, account, plan, i - |before|);
      }
    }
  }

  lemma OldAttemptExact(before: seq<Attempt>, round: seq<Attempt>, account: string, plan: RetryPlan, i: nat)
    requires i < |before| && before[i].error.Some? && NewRound(before, round, account)
    requires MayRetry(before, plan, i) <==> Retried(before, i)
    ensures MayRetry(before + round, plan, i) <==> Retried(before + round, i)
  {
    hide RetryPlan.CanRetrySameAccount;
    assert (before + round)[..i] == before[..i] && before[i] in before;
    assert round != [] ==> round[0] in round;
  }

  lemma NewAttemptExact(before: seq<Attempt>, round: seq<Attempt>, account: string, plan: RetryPlan, k: nat)
    requires k < |round| && round[k].error.Some?
    requires RoundExact(round, plan, |before|) && NewRound(before, round, account)
    ensures var all, i := before + round, |before| + k;
            MayRetry(all, plan, i) <==> Retried(all, i)
  {
    hide RetryPlan.CanRetrySameAccount, CountFor;
    var all, i := before + round, |before| + k;
    assert all[..i] == before + round[..k] && round[k] in round;
    assert k + 1 < |round| ==> round[k + 1] in round;
    CountForConcat(before, round[..k], account);
    CountForAbsent(before, account);
    CountForAll(round[..k], account);
  }

  lemma {:induction false} CountForAll(attempts: seq<Attempt>, account: string)
    requires forall a :: a in attempts ==> a.account == account
    ensures CountFor(attempts, account) == |attempts|
  {
    if attempts != [] {
      assert attempts[0] in attempts;
      CountForAll(attempts[1..], account);
    }
  }

  /**
   After a failed attempt the same account is tried again exactly when the error may pass, which is neither the
   caller's own, nor a cancellation, nor final for the account (a broken stream never is), and both the account
   and the request have attempts left.
   */
  lemma TriedAgainExactlyWhen(attempts: seq<Attempt>, plan: RetryPlan, i: nat)
    requires RetriesExactly(attempts, plan) && i < |attempts| && attempts[i].error.Some?
    ensures var e, account := attempts[i].error.value, attempts[i].account;
            i + 1 < |attempts| && attempts[i + 1].account == account <==>
              && !e.clientError && !e.canceled && !(e.terminal && !e.integrity)
              && CountFor(attempts[..i + 1], account) < plan.maxPerAccount && i + 1 < plan.maxPerRequest
  {
    var one := [attempts[i]];
    assert attempts[..i + 1] == attempts[..i] + one;
    CountForConcat(attempts[..i], one, attempts[i].account);
    CountForAll(one, attempts[i].account);
    hide CountFor;
    assert MayRetry(attempts, plan, i) <==> Retried(attempts, i);
  }

  /** Why a request stopped trying. */
  ghost predicate StoppedFor(attempts: seq<Attempt>, plan: RetryPlan, noneLeft: bool) {
    || noneLeft
    || |attempts| == plan.maxPerRequest
    || (attempts != [] && var e := attempts[|attempts| - 1].error; e.None? || e.value.clientError || e.value.canceled)
  }

  /**
   One request over the accounts of the pool.  `upstream(k)` is how the k-th call fares and
   `worlds(k)` what the pool looks like at the k-th pick.
   */
  method CallWithFailover(pool: AccountPool, plan: RetryPlan, model: string, upstream: nat -> Option<CallError>,
                          worlds: nat -> World)
      returns (r: Result, attempts: seq<Attempt>, noneLeft: bool, ghost last: World)
    requires plan.Valid() && forall k :: ValidWorld(worlds(k))
    modifies pool
    ensures Disciplined(attempts, plan) && RetriesExactly(attempts, plan)
    ensures Follows(attempts, upstream)
    ensures StoppedFor(attempts, plan, noneLeft)
    ensures noneLeft ==> NoneCanServe(pool, model, Tried(attempts), last.moment)
    ensures match r
            case Served(account) => attempts != [] && attempts[|attempts| - 1] == Attempt(account, None)
            case Failed(account, error) => attempts != [] && attempts[|attempts| - 1] == Attempt(account, Some(error))
            case NoAccounts => attempts == [] && noneLeft
  {
    hide *;
    attempts, noneLeft := [], false;
    var excluded: set<string> := {};
    var lastErr: Option<CallError> := None;
    var lastAccount := "";
    var totalAttempts, picks := 0, 0;
    last := worlds(0);
    NoAttempts(plan, upstream);
    while totalAttempts < plan.maxPerRequest && !(lastErr.Some? && lastErr.value.clientError)
      invariant totalAttempts == |attempts| <= plan.maxPerRequest
      invariant Disciplined(attempts, plan) && RetriesExactly(attempts, plan)
      invariant Follows(attempts, upstream) && excluded == Tried(attempts)
      invariant if attempts == [] then lastErr.None?
                else
                  && lastErr.Some? && !lastErr.value.canceled
                  && attempts[|attempts| - 1] == Attempt(lastAccount, lastErr)
      decreases plan.maxPerRequest - totalAttempts
    {
      last := worlds(picks);
      var picked := PickAccount(pool, worlds(picks), model, excluded);
      picks := picks + 1;
      if picked.None? {
        noneLeft := true;
        break;
      }
      var account := picked.value;
      var round: seq<Attempt>;
      var done: bool;
      round, done := TryAccount(account, plan, |attempts|, upstream);
      StillGoing(attempts);
      RoundAdded(attempts, round, account, plan, upstream);
      attempts, totalAttempts := attempts + round, totalAttempts + |round|;
      lastErr, lastAccount := round[|round| - 1].error, account;
      WhyStopped(attempts, plan, noneLeft);
      if lastErr.None? { return Served(account), attempts, noneLeft, last; }
      if done { return Failed(account, lastErr.value), attempts, noneLeft, last; }
      excluded := excluded + {account};
    }
    WhyStopped(attempts, plan, noneLeft);
    if lastErr.None? {
      r := NoAccounts;
    } else {
      r := Failed(lastAccount, lastErr.value);
    }
  }

  lemma WhyStopped(attempts: seq<Attempt>, plan: RetryPlan, noneLeft: bool)
    ensures noneLeft || |attempts| == plan.maxPerRequest ==> StoppedFor(attempts, plan, noneLeft)
    ensures attempts != [] ==>
              var e := attempts[|attempts| - 1].error;
              e.None? || e.value.clientError || e.value.canceled ==> StoppedFor(attempts, plan, noneLeft)
  {
  }

  lemma StillGoing(attempts: seq<Attempt>)
    ensures attempts == [] ==> GoesOn(attempts)
    ensures attempts != [] ==>
              var e := attempts[|attempts| - 1].error;
              e.Some? && !e.value.clientError && !e.value.canceled ==> GoesOn(attempts)
  {
  }

  ghost predicate NoneCanServe(pool: AccountPool, model: string, excluded: set<string>, m: Moment)
    reads pool
  {
    forall i :: 0 <= i < |pool.accounts| ==> !pool.CanServe(pool.accounts[i], model, excluded, m)
  }

  /** pickAccount, in the world it finds. */
  method PickAccount(pool: AccountPool, w: World, model: string, excluded: set<string>) returns (id: Option<string>)
    requires ValidWorld(w)
    modifies pool
    ensures pool.Valid()
    ensures id.Some? ==> id.value !in excluded
    ensures id.None? <==> NoneCanServe(pool, model, excluded, w.moment)
  {
    pool.Become(w.accounts, w.rota, w.cooldowns);
    var picked := pool.GetPreferredForModelExcluding(w.preferred, model, excluded, w.moment);
    id := if picked.Some? then Some(picked.value.id) else None;
  }

  ghost predicate Follows(attempts: seq<Attempt>, upstream: nat -> Option<CallError>) {
    forall i :: 0 <= i < |attempts| ==> attempts[i].error == upstream(i)
  }

  ghost function Tried(attempts: seq<Attempt>): set<string> {
    set a | a in attempts :: a.account
  }

  lemma RoundAdded(attempts: seq<Attempt>, round: seq<Attempt>, account: string, plan: RetryPlan,
                   upstream: nat -> Option<CallError>)
    requires Disciplined(attempts, plan) && Follows(attempts, upstream)
    requires account !in Tried(attempts) && forall a :: a in round ==> a.account == account
    requires |attempts| + |round| <= plan.maxPerRequest && 1 <= |round| <= plan.maxPerAccount
    requires forall i :: 0 <= i < |round| ==> round[i].error == upstream(|attempts| + i)
    requires OnlyLastIsFinal(round) && RetriesArePlausible(round) && GoesOn(attempts)
    requires RetriesExactly(attempts, plan) && RoundExact(round, plan, |attempts|)
    ensures Disciplined(attempts + round, plan) && Follows(attempts + round, upstream)
    ensures RetriesExactly(attempts + round, plan)
    ensures Tried(attempts + round) == Tried(attempts) + {account}
    ensures (attempts + round)[|attempts + round| - 1] == round[|round| - 1]
    ensures round[|round| - 1] in round
  {
    hide *;
    LastOf(attempts, round);
    NewAccount(attempts, round, account);
    RoundKeepsDiscipline(attempts, round, account, plan);
    RoundStaysExact(attempts, round, account, plan);
    FollowsConcat(attempts, round, upstream);
    TriedConcat(attempts, round, account);
  }

  lemma LastOf(attempts: seq<Attempt>, round: seq<Attempt>)
    requires round != []
    ensures (attempts + round)[|attempts + round| - 1] == round[|round| - 1] && round[|round| - 1] in round
  {
  }

  lemma NewAccount(attempts: seq<Attempt>, round: seq<Attempt>, account: string)
    requires account !in Tried(attempts) && forall a :: a in round ==> a.account == account
    ensures NewRound(attempts, round, account)
  {
  }

  lemma FollowsConcat(attempts: seq<Attempt>, round: seq<Attempt>, upstream: nat -> Option<CallError>)
    requires Follows(attempts, upstream)
    requires forall i :: 0 <= i < |round| ==> round[i].error == upstream(|attempts| + i)
    ensures Follows(attempts + round, upstream)
  {
    var all := attempts + round;
    forall i | 0 <= i < |all| ensures all[i].error == upstream(i) {
      if i >= |attempts| { assert all[i] == round[i - |attempts|]; }
    }
  }

  lemma TriedConcat(attempts: seq<Attempt>, round: seq<Attempt>, account: string)
    requires round != [] && forall a :: a in round ==> a.account == account
    ensures Tried(attempts + round) == Tried(attempts) + {account}
  {
    var all := attempts + round;
    assert forall a :: a in all <==> a in attempts || a in round;
    assert round[0] in all;
  }

  lemma NoAttempts(plan: RetryPlan, upstream: nat -> Option<CallError>)
    requires plan.Valid()
    ensures Disciplined([], plan) && RetriesExactly([], plan) && Follows([], upstream) && Tried([]) == {}
    ensures plan.maxPerRequest >= 1
  {
  }

  /** The inner loop: one account until it answers, gives up or the request must stop (`done`). */
  method TryAccount(account: string, plan: RetryPlan, before: nat, upstream: nat -> Option<CallError>)
      returns (round: seq<Attempt>, done: bool)
    requires plan.Valid() && before < plan.maxPerRequest
    ensures 1 <= |round| <= plan.maxPerAccount && before + |round| <= plan.maxPerRequest
    ensures forall a :: a in round ==> a.account == account
    ensures forall i :: 0 <= i < |round| ==> round[i].error == upstream(before + i)
    ensures OnlyLastIsFinal(round) && RetriesArePlausible(round) && RoundExact(round, plan, before)
    ensures done <==> var e := round[|round| - 1].error; e.None? || e.value.canceled
  {
    round := [];
    var accountAttempt, totalAttempts := 0, before;
    while accountAttempt < plan.maxPerAccount && totalAttempts < plan.maxPerRequest
      invariant accountAttempt == |round| <= plan.maxPerAccount
      invariant totalAttempts == before + |round| <= plan.maxPerRequest
      invariant forall a :: a in round ==> a.account == account
      invariant forall i :: 0 <= i < |round| ==> round[i].error == upstream(before + i)
      invariant forall i :: 0 <= i < |round| ==> var e := round[i].error;
                  e.Some? && !e.value.clientError && !e.value.canceled && (e.value.integrity || !e.value.terminal)
                  && plan.CanRetrySameAccount(e.value, i, before + i + 1)
      invariant round == [] || (|round| < plan.maxPerAccount && totalAttempts < plan.maxPerRequest)
      decreases plan.maxPerAccount - accountAttempt
    {
      totalAttempts := totalAttempts + 1;
      var error := upstream(totalAttempts - 1);
      round := round + [Attempt(account, error)];
      if error.None? || error.value.canceled { return round, true; }
      if !plan.CanRetrySameAccount(error.value, accountAttempt, totalAttempts) { return round, false; }
      accountAttempt := accountAttempt + 1;
    }
    assert false;
  }
}
