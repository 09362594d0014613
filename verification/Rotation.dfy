/**
 The account rotation (pool/account.go): a cyclic walk over weighted slots that skips the account
 used last while another can serve.

 `Rota` and `Pick` specify the walk on values; the class is proved to take exactly those steps.
 */
module Rotation {
  import opened Text
  import opened Overlap

  const TOKEN_REFRESH_SKEW_SECONDS := 120
  const NANOSECONDS := 1_000_000_000

  datatype Account = Account(
    id: string, weight: int, expiresAt: int, accessToken: string, refreshToken: string,
    usageLimit: real, usageCurrent: real, overageEnabled: bool)

  /** What a pick depends on besides the pool: the clock, in nanoseconds, and the configuration. */
  datatype Moment = Moment(now: nat, allowOverUsage: bool)

  // ---------------------------------------------------------------- the walk on values

  /** The slots' account ids, the next slot to try and the id returned last. */
  datatype Rota = Rota(ids: seq<string>, cursor: nat, last: string) {
    predicate Valid() {
      cursor < |ids| || (ids == [] && cursor == 0)
    }
  }

  /** The slot `i` places after `cursor`, going round. */
  function Slot(cursor: nat, i: nat, n: nat): nat
    requires cursor < n && i < n
    ensures Slot(cursor, i, n) < n
  {
    if cursor + i < n then cursor + i else cursor + i - n
  }

  /** How far from the cursor the first slot of `good` is, from `i` on; the number of slots when there is none. */
  function FirstOffset(rota: Rota, good: set<string>, i: nat): (d: nat)
    requires rota.Valid() && i <= |rota.ids|
    ensures i <= d <= |rota.ids|
    ensures d < |rota.ids| ==> rota.ids[Slot(rota.cursor, d, |rota.ids|)] in good
    ensures forall j :: i <= j < d ==> rota.ids[Slot(rota.cursor, j, |rota.ids|)] !in good
    decreases |rota.ids| - i
  {
    var n := |rota.ids|;
    if i == n || rota.ids[Slot(rota.cursor, i, n)] in good then i else FirstOffset(rota, good, i + 1)
  }

  /** Taking the slot at an offset moves the cursor just past it. */
  function Take(rota: Rota, d: nat): (r: (string, Rota))
    requires rota.Valid() && d < |rota.ids|
    ensures r.1.Valid() && r.1.ids == rota.ids
  {
    var n := |rota.ids|;
    var slot := Slot(rota.cursor, d, n);
    (rota.ids[slot], Rota(rota.ids, if slot + 1 == n then 0 else slot + 1, rota.ids[slot]))
  }

  /** One pick among the accounts that can serve: another than last time if there is one. */
  function Pick(rota: Rota, serving: set<string>): (r: (Option<string>, Rota))
    requires rota.Valid()
    ensures r.1.Valid() && r.1.ids == rota.ids
  {
    var n := |rota.ids|;
    var d := FirstOffset(rota, serving - {rota.last}, 0);
    var e := FirstOffset(rota, serving, 0);
    if d < n then
      var (id, next) := Take(rota, d);
      (Some(id), next)
    else if e < n then
      var (id, next) := Take(rota, e);
      (Some(id), next)
    else (None, rota)
  }

  /** One request: a preferred account that can serve is used without touching the rotation. */
  datatype Request = Request(preferred: string, serving: set<string>)

  predicate PreferredHit(rota: Rota, r: Request) {
    r.preferred != "" && r.preferred in rota.ids && r.preferred in r.serving
  }

  function Serve(rota: Rota, r: Request): (Option<string>, Rota)
    requires rota.Valid()
  {
    if PreferredHit(rota, r) then (Some(r.preferred), rota) else Pick(rota, r.serving)
  }

  // ---------------------------------------------------------------- one pick

  lemma AllSlotsReached(rota: Rota, k: nat) returns (i: nat)
    requires rota.Valid() && k < |rota.ids|
    ensures i < |rota.ids| && Slot(rota.cursor, i, |rota.ids|) == k
  {
    i := if k >= rota.cursor then k - rota.cursor else k + |rota.ids| - rota.cursor;
  }

  /** A slot's account within reach is found no later than there. */
  lemma FoundBy(rota: Rota, good: set<string>, id: string)
    requires rota.Valid() && id in rota.ids && id in good
    ensures FirstOffset(rota, good, 0) < |rota.ids|
    ensures FirstOffset(rota, good, 0) <= FirstOffset(rota, {id}, 0) < |rota.ids|
  {
    var k :| 0 <= k < |rota.ids| && rota.ids[k] == id;
    var i := AllSlotsReached(rota, k);
    assert rota.ids[Slot(rota.cursor, i, |rota.ids|)] in {id};
  }

  /**
   A pick fails exactly when no slot's account can serve; what it returns can serve and differs from last
   time if anything else can.
   */
  lemma PickMeaning(rota: Rota, serving: set<string>)
    requires rota.Valid()
    ensures var (id, next) := Pick(rota, serving);
            && (id.None? <==> forall k :: 0 <= k < |rota.ids| ==> rota.ids[k] !in serving)
            && (id.None? ==> next == rota)
            && (id.Some? ==> id.value in rota.ids && id.value in serving && next.last == id.value)
            && (id.Some? && (exists k :: 0 <= k < |rota.ids| && rota.ids[k] in serving && rota.ids[k] != rota.last) ==>
                id.value != rota.last)
  {
    forall k | 0 <= k < |rota.ids|
      ensures rota.ids[k] in serving ==> Pick(rota, serving).0.Some?
      ensures rota.ids[k] in serving && rota.ids[k] != rota.last ==>
                FirstOffset(rota, serving - {rota.last}, 0) < |rota.ids|
    {
      if rota.ids[k] in serving { FoundBy(rota, serving, rota.ids[k]); }
      if rota.ids[k] in serving && rota.ids[k] != rota.last { FoundBy(rota, serving - {rota.last}, rota.ids[k]); }
    }
  }

  // ---------------------------------------------------------------- no starvation

  /** The accounts the rotation itself returned, leaving out preferred hits. */
  function RotationPicks(rota: Rota, requests: seq<Request>): seq<Option<string>>
    requires rota.Valid()
    decreases |requests|
  {
    if requests == [] then []
    else
      var (id, next) := Serve(rota, requests[0]);
      if PreferredHit(rota, requests[0]) then RotationPicks(rota, requests[1..])
      else [id] + RotationPicks(next, requests[1..])
  }

  /** How many slots the walk still has to pass before it reaches the account. */
  function Distance(rota: Rota, id: string): nat
    requires rota.Valid()
  {
    FirstOffset(rota, {id}, 0)
  }

  /** Every pick of another account brings the walk closer, unless the account was just used. */
  lemma PickComesCloser(rota: Rota, serving: set<string>, id: string)
    requires rota.Valid() && id in rota.ids && id in serving
    ensures var (picked, next) := Pick(rota, serving);
            && Distance(rota, id) < |rota.ids| && Distance(next, id) < |rota.ids|
            && picked.Some? && next.last == picked.value
            && (picked.value != id ==> Distance(next, id) < |rota.ids| - 1)
            && (picked.value != id && rota.last != id ==> Distance(next, id) < Distance(rota, id))
  {
    var (picked, next) := Pick(rota, serving);
    FoundBy(rota, serving, id);
    FoundBy(next, {id}, id);
    PickedIsBehind(rota, serving);
    if picked.value != id && rota.last != id { PickStopsShort(rota, serving, id); }
  }

  /** The account just picked is in the slot the walk comes to last. */
  lemma PickedIsBehind(rota: Rota, serving: set<string>)
    requires rota.Valid() && FirstOffset(rota, serving, 0) < |rota.ids|
    ensures var (picked, next), n := Pick(rota, serving), |rota.ids|;
            picked.Some? && next.ids[Slot(next.cursor, n - 1, n)] == picked.value
  {
    hide FirstOffset, Take;
    var d, e := FirstOffset(rota, serving - {rota.last}, 0), FirstOffset(rota, serving, 0);
    if d < |rota.ids| { TakenIsBehind(rota, d); } else { TakenIsBehind(rota, e); }
  }

  lemma TakenIsBehind(rota: Rota, d: nat)
    requires rota.Valid() && d < |rota.ids|
    ensures var (id, next), n := Take(rota, d), |rota.ids|;
            next.Valid() && next.ids == rota.ids && next.ids[Slot(next.cursor, n - 1, n)] == id
  {
  }

  lemma PickStopsShort(rota: Rota, serving: set<string>, id: string)
    requires rota.Valid() && id in rota.ids && id in serving && rota.last != id
    requires Pick(rota, serving).0 != Some(id)
    ensures Distance(Pick(rota, serving).1, id) < Distance(rota, id)
  {
    var n, far := |rota.ids|, Distance(rota, id);
    var next := Pick(rota, serving).1;
    FoundBy(rota, serving - {rota.last}, id);
    var d := FirstOffset(rota, serving - {rota.last}, 0);
    assert d < far;
    assert next.ids[Slot(next.cursor, far - d - 1, n)] == rota.ids[Slot(rota.cursor, far, n)];
  }

  lemma {:induction false} ReachedByDistance(rota: Rota, requests: seq<Request>, id: string)
    requires rota.Valid() && id in rota.ids && rota.last != id
    requires forall r :: r in requests ==> id in r.serving
    requires |RotationPicks(rota, requests)| > Distance(rota, id)
    ensures Some(id) in RotationPicks(rota, requests)[..Distance(rota, id) + 1]
    decreases |requests|
  {
    hide Pick, FirstOffset;
    var r, rest := requests[0], requests[1..];
    assert r in requests;
    assert forall x :: x in rest ==> x in requests;
    if PreferredHit(rota, r) {
      ReachedByDistance(rota, rest, id);
    } else {
      var (picked, next) := Pick(rota, r.serving);
      PickComesCloser(rota, r.serving, id);
      var picks := RotationPicks(rota, requests);
      assert picks == [picked] + RotationPicks(next, rest);
      if picked.value == id {
        assert picks[..Distance(rota, id) + 1][0] == picked;
      } else {
        ReachedByDistance(next, rest, id);
        var found := RotationPicks(next, rest)[..Distance(next, id) + 1];
        assert [picked] + found <= picks;
        PrefixMember([picked] + found, picks, Distance(rota, id) + 1, Some(id));
      }
    }
  }

  lemma PrefixMember<T>(short: seq<T>, long: seq<T>, k: nat, x: T)
    requires short <= long && |short| <= k <= |long| && x in short
    ensures x in long[..k]
  {
    var i :| 0 <= i < |short| && short[i] == x;
    assert long[..k][i] == x;
  }

  /**
   No starvation: over an unchanged rotation of n slots, an account that can serve every request
   is returned within n rotation picks, whatever the others do and however many preferred hits
   come in between.
   */
  lemma {:induction false} NoStarvation(rota: Rota, requests: seq<Request>, id: string)
    requires rota.Valid() && id in rota.ids
    requires forall r :: r in requests ==> id in r.serving
    requires |RotationPicks(rota, requests)| >= |rota.ids|
    ensures Some(id) in RotationPicks(rota, requests)[..|rota.ids|]
    decreases |requests|
  {
    hide Pick, FirstOffset;
    var r, rest := requests[0], requests[1..];
    assert r in requests;
    assert forall x :: x in rest ==> x in requests;
    var picks := RotationPicks(rota, requests);
    PickComesCloser(rota, r.serving, id);
    if rota.last != id {
      ReachedByDistance(rota, requests, id);
      PrefixMember(picks[..Distance(rota, id) + 1], picks, |rota.ids|, Some(id));
    } else if PreferredHit(rota, r) {
      NoStarvation(rota, rest, id);
    } else {
      var (picked, next) := Pick(rota, r.serving);
      assert picks == [picked] + RotationPicks(next, rest);
      if picked.value == id {
        assert picks[..|rota.ids|][0] == picked;
      } else {
        ReachedByDistance(next, rest, id);
        var found := RotationPicks(next, rest)[..Distance(next, id) + 1];
        assert [picked] + found <= picks;
        PrefixMember([picked] + found, picks, |rota.ids|, Some(id));
      }
    }
  }

  /**
   Distinct accounts that can all serve take turns: the k-th pick is the slot k places on, so
   none is served twice in n picks and the bound above cannot be lowered.
   */
  lemma {:induction false} AllServeInTurn(rota: Rota, requests: seq<Request>, k: nat)
    requires rota.Valid() && |rota.ids| > 1 && forall i, j :: 0 <= i < j < |rota.ids| ==> rota.ids[i] != rota.ids[j]
    requires rota.last != rota.ids[rota.cursor]
    requires forall r :: r in requests ==> r.preferred == "" && forall id :: id in rota.ids ==> id in r.serving
    requires k < |requests| && k < |rota.ids|
    ensures k < |RotationPicks(rota, requests)|
    ensures RotationPicks(rota, requests)[k] == Some(rota.ids[Slot(rota.cursor, k, |rota.ids|)])
    decreases k
  {
    hide Pick, FirstOffset;
    var r, rest := requests[0], requests[1..];
    assert r in requests && rota.ids[rota.cursor] in rota.ids;
    TurnTaken(rota, r.serving);
    if k > 0 {
      assert forall x :: x in rest ==> x in requests;
      AllServeInTurn(Pick(rota, r.serving).1, rest, k - 1);
    }
  }

  lemma TurnTaken(rota: Rota, serving: set<string>)
    requires rota.Valid() && |rota.ids| > 1 && forall i, j :: 0 <= i < j < |rota.ids| ==> rota.ids[i] != rota.ids[j]
    requires rota.last != rota.ids[rota.cursor] && rota.ids[rota.cursor] in serving
    ensures var (picked, next) := Pick(rota, serving);
            && picked == Some(rota.ids[rota.cursor])
            && next.cursor == (if rota.cursor + 1 == |rota.ids| then 0 else rota.cursor + 1)
            && next.ids == rota.ids && next.last != next.ids[next.cursor]
  {
    assert FirstOffset(rota, serving - {rota.last}, 0) == 0;
  }

  // ---------------------------------------------------------------- the pool

  predicate IsOverUsageLimit(acc: Account) {
    acc.usageLimit > 0.0 && acc.usageCurrent >= acc.usageLimit
  }

  predicate OutOfQuota(acc: Account, allowOverUsage: bool) {
    IsOverUsageLimit(acc) && !acc.overageEnabled && !allowOverUsage
  }

  predicate TokenUnavailableForSelection(acc: Account, nowUnix: int) {
    acc.expiresAt != 0 && nowUnix > acc.expiresAt - TOKEN_REFRESH_SKEW_SECONDS && acc.refreshToken == ""
  }

  function EffectiveWeight(weight: int): nat {
    if weight < 1 then 1 else weight
  }

  function Repeat(acc: Account, w: nat): (s: seq<Account>)
    ensures |s| == w && forall i :: 0 <= i < w ==> s[i] == acc
  {
    seq(w, i => acc)
  }

  /** The slots of the enabled accounts that have quota, each as often as its weight says. */
  function Weighted(enabled: seq<Account>, allowOverUsage: bool): seq<Account> {
    Collect(enabled, (a: Account) => if OutOfQuota(a, allowOverUsage) then [] else Repeat(a, EffectiveWeight(a.weight)))
  }

  /** Slots of one account are copies of each other. */
  ghost predicate Coherent(accounts: seq<Account>) {
    forall i, j :: 0 <= i < |accounts| && 0 <= j < |accounts| && accounts[i].id == accounts[j].id ==>
        accounts[i] == accounts[j]
  }

  function Ids(accounts: seq<Account>): (ids: seq<string>)
    ensures |ids| == |accounts| && forall i :: 0 <= i < |ids| ==> ids[i] == accounts[i].id
  {
    seq(|accounts|, i requires 0 <= i < |accounts| => accounts[i].id)
  }

  lemma ModOnce(x: nat, n: nat)
    requires n <= x < 2 * n
    ensures x % n == x - n
  {
    var q := x / n;
    assert x == q * n + x % n;
    assert q >= 2 ==> q * n >= 2 * n;
    assert q <= 0 ==> q * n <= 0;
  }

  lemma RoundTheSlots(cursor: nat, i: nat, n: nat)
    requires cursor < n && i < n
    ensures (cursor + i) % n == Slot(cursor, i, n)
    ensures (Slot(cursor, i, n) + 1) % n == if Slot(cursor, i, n) + 1 == n then 0 else Slot(cursor, i, n) + 1
  {
    Wraps(cursor + i, n);
    Wraps(Slot(cursor, i, n) + 1, n);
  }

  /** One step around the circle at most. */
  lemma Wraps(x: nat, n: nat)
    requires x < 2 * n
    ensures x % n == if x < n then x else x - n
  {
    if x >= n { ModOnce(x, n); } else { ModLess(x, n); }
  }

  lemma ModLess(x: nat, n: nat)
    requires x < n
    ensures x % n == x
  {
    var q := x / n;
    assert x == q * n + x % n;
    assert q >= 1 ==> q * n >= n;
  }

  lemma ModBelow(x: nat, n: nat)
    requires n > 0
    ensures x % n < n
  {
  }

  /** Slots made from accounts with distinct ids are coherent. */
  lemma WeightedIsCoherent(enabled: seq<Account>, allowOverUsage: bool)
    requires forall i, j :: 0 <= i < j < |enabled| ==> enabled[i].id != enabled[j].id
    ensures Coherent(Weighted(enabled, allowOverUsage))
  {
    hide Weighted;
    var slots := Weighted(enabled, allowOverUsage);
    WeightedIsFromEnabled(enabled, allowOverUsage);
    forall i, j | 0 <= i < |slots| && 0 <= j < |slots| && slots[i].id == slots[j].id
      ensures slots[i] == slots[j]
    {
      assert slots[i] in slots && slots[j] in slots;
      var x :| 0 <= x < |enabled| && enabled[x] == slots[i];
      var y :| 0 <= y < |enabled| && enabled[y] == slots[j];
      assert x == y;
    }
  }

  lemma {:induction false} WeightedIsFromEnabled(enabled: seq<Account>, allowOverUsage: bool)
    ensures forall a :: a in Weighted(enabled, allowOverUsage) ==> a in enabled
  {
    if enabled != [] {
      WeightedIsFromEnabled(enabled[1..], allowOverUsage);
      var first := if OutOfQuota(enabled[0], allowOverUsage) then []
          else Repeat(enabled[0], EffectiveWeight(enabled[0].weight));
      assert Weighted(enabled, allowOverUsage) == first + Weighted(enabled[1..], allowOverUsage);
      assert forall a :: a in enabled <==> a == enabled[0] || a in enabled[1..];
      assert forall a :: a in first ==> a == enabled[0];
    }
  }

  /**
   An enabled account has as many slots as its weight says, and at least one, unless it used up a limit that
   nothing allows it to exceed.
   */
  lemma {:induction false} SlotsByWeight(enabled: seq<Account>, allowOverUsage: bool, i: nat)
    requires i < |enabled| && forall j, k :: 0 <= j < k < |enabled| ==> enabled[j].id != enabled[k].id
    ensures var a := enabled[i];
            multiset(Weighted(enabled, allowOverUsage))[a] ==
              if a.usageLimit > 0.0 && a.usageLimit <= a.usageCurrent && !(a.overageEnabled || allowOverUsage) then 0
              else if a.weight > 1 then a.weight else 1
  {
    var a, rest := enabled[i], enabled[1..];
    var first := if OutOfQuota(enabled[0], allowOverUsage) then []
                 else Repeat(enabled[0], EffectiveWeight(enabled[0].weight));
    assert Weighted(enabled, allowOverUsage) == first + Weighted(rest, allowOverUsage);
    CopiesOf(first, enabled[0], a);
    if i > 0 {
      SlotsByWeight(rest, allowOverUsage, i - 1);
    } else {
      WeightedIsFromEnabled(rest, allowOverUsage);
      assert a !in rest;
    }
  }

  lemma {:induction false} CopiesOf(copies: seq<Account>, of: Account, a: Account)
    requires forall i :: 0 <= i < |copies| ==> copies[i] == of
    ensures multiset(copies)[a] == if a == of then |copies| else 0
  {
    if copies != [] {
      CopiesOf(copies[1..], of, a);
      assert copies == [copies[0]] + copies[1..];
    }
  }

  class AccountPool {
    var accounts: seq<Account>
    var totalAccounts: nat
    var currentIndex: nat
    var lastSelected: string
    var cooldowns: map<string, nat>
    var modelLists: map<string, set<string>>
    var enabledIds: seq<string>

    ghost predicate Valid()
      reads this
    {
      View().Valid() && Coherent(accounts)
    }

    function View(): Rota
      reads this
    {
      Rota(Ids(accounts), currentIndex, lastSelected)
    }

    constructor ()
      ensures Valid()
    {
      accounts, totalAccounts, currentIndex, lastSelected := [], 0, 0, "";
      cooldowns, modelLists, enabledIds := map[], map[], [];
    }

    /** The pool after other requests, reloads and failure handling have had their turn. */
    method Become(accounts: seq<Account>, rota: Rota, cooldowns: map<string, nat>)
      requires Coherent(accounts) && rota.Valid() && rota.ids == Ids(accounts)
      modifies this
      ensures Valid() && View() == rota && this.accounts == accounts && this.cooldowns == cooldowns
    {
      this.accounts, this.cooldowns := accounts, cooldowns;
      currentIndex, lastSelected := rota.cursor, rota.last;
    }

    predicate AccountHasModel(id: string, model: string)
      reads this
    {
      id in modelLists && modelLists[id] != {} ==> ToLower(TrimSpace(model)) in modelLists[id]
    }

    predicate CanServe(acc: Account, model: string, excluded: set<string>, m: Moment)
      reads this
    {
      && acc.id !in excluded
      && (model != "" ==> AccountHasModel(acc.id, model))
      && !(acc.id in cooldowns && m.now < cooldowns[acc.id])
      && !TokenUnavailableForSelection(acc, m.now / NANOSECONDS)
      && !OutOfQuota(acc, m.allowOverUsage)
    }

    /**
     An account can serve unless it is left out, lacks the model, still cools down, has a token that ends within
     two minutes and none to renew it with, or used up a limit that nothing allows it to exceed.
     */
    lemma ServesExactlyWhen(acc: Account, model: string, excluded: set<string>, m: Moment)
      ensures CanServe(acc, model, excluded, m) <==>
                && acc.id !in excluded
                && (model == "" || acc.id !in modelLists || modelLists[acc.id] == {}
                    || ToLower(TrimSpace(model)) in modelLists[acc.id])
                && (acc.id in cooldowns ==> cooldowns[acc.id] <= m.now)
                && (acc.expiresAt == 0 || acc.refreshToken != "" || m.now / 1_000_000_000 + 120 <= acc.expiresAt)
                && (acc.usageLimit <= 0.0 || acc.usageCurrent < acc.usageLimit || acc.overageEnabled
                    || m.allowOverUsage)
    {
    }

    /** The ids of the accounts in rotation that can serve. */
    ghost function Serving(model: string, excluded: set<string>, m: Moment): (ids: set<string>)
      reads this
      ensures Coherent(accounts) ==> forall i :: 0 <= i < |accounts| ==>
                (accounts[i].id in ids <==> CanServe(accounts[i], model, excluded, m))
    {
      set i | 0 <= i < |accounts| && CanServe(accounts[i], model, excluded, m) :: accounts[i].id
    }

    /** Rebuilds the rotation from the configuration's enabled accounts. */
    method Reload(enabled: seq<Account>, allowOverUsage: bool)
      requires forall i, j :: 0 <= i < j < |enabled| ==> enabled[i].id != enabled[j].id
      modifies this
      ensures Valid()
      ensures accounts == Weighted(enabled, allowOverUsage) && totalAccounts == |enabled|
      ensures |enabledIds| == |enabled| && forall i :: 0 <= i < |enabled| ==> enabledIds[i] == enabled[i].id
      ensures accounts == [] ==> currentIndex == 0 && lastSelected == ""
      ensures accounts != [] ==> currentIndex == old(currentIndex) % |accounts| && lastSelected == old(lastSelected)
      ensures cooldowns == old(cooldowns) && modelLists == old(modelLists)
    {
      hide Weighted, Coherent, Ids;
      WeightedIsCoherent(enabled, allowOverUsage);
      var weighted, ids := BuildSlots(enabled, allowOverUsage);
      accounts, enabledIds, totalAccounts := weighted, ids, |enabled|;
      if |weighted| > 0 {
        ModBelow(currentIndex, |weighted|);
        if currentIndex < |weighted| { ModLess(currentIndex, |weighted|); }
      }
      if |weighted| == 0 {
        currentIndex, lastSelected := 0, "";
      } else if currentIndex >= |weighted| {
        currentIndex := currentIndex % |weighted|;
      }
    }

    /** New tokens reach every slot of the account. */
    method UpdateToken(id: string, accessToken: string, refreshToken: string, expiresAt: int)
      requires Valid()
      modifies this`accounts
      ensures Valid() && Ids(accounts) == old(Ids(accounts))
      ensures forall i :: 0 <= i < |accounts| ==>
                accounts[i] == old(Retokened(accounts[i], id, accessToken, refreshToken, expiresAt))
    {
      var i := 0;
      ghost var before := accounts;
      while i < |accounts|
        invariant 0 <= i <= |accounts| == |before|
        invariant forall k :: 0 <= k < i ==>
                    accounts[k] == Retokened(before[k], id, accessToken, refreshToken, expiresAt)
        invariant forall k :: i <= k < |accounts| ==> accounts[k] == before[k]
      {
        if accounts[i].id == id {
          accounts := accounts[i := accounts[i].(
            accessToken := accessToken,
            refreshToken := if refreshToken != "" then refreshToken else accounts[i].refreshToken,
            expiresAt := expiresAt)];
        }
        i := i + 1;
      }
    }

    /**
     One pass over the slots from the cursor; it takes the first that can serve, skipping the last used if
     told to.
     */
    method FindNextAvailable(model: string, excluded: set<string>, avoidLast: bool, m: Moment)
        returns (r: Option<Account>)
      requires Valid()
      modifies this`currentIndex, this`lastSelected
      ensures Valid()
      ensures var good := old(Serving(model, excluded, m)) - (if avoidLast then {old(lastSelected)} else {});
              var d := FirstOffset(old(View()), good, 0);
              if d < |accounts| then
                && r.Some? && r.value == accounts[Slot(old(currentIndex), d, |accounts|)]
                && (r.value.id, View()) == Take(old(View()), d)
              else r.None? && View() == old(View())
    {
      var n := |accounts|;
      var start := currentIndex;
      var seen: set<string> := {};
      ghost var good := Serving(model, excluded, m) - (if avoidLast then {lastSelected} else {});
      ghost var rota := View();
      var i := 0;
      while i < n
        invariant 0 <= i <= n && View() == rota
        invariant seen !! good
        invariant FirstOffset(rota, good, 0) == FirstOffset(rota, good, i)
      {
        RoundTheSlots(start, i, n);
        var idx := (start + i) % n;
        var acc := accounts[idx];
        if acc.id !in seen {
          if !(avoidLast && acc.id == lastSelected) && CanServe(acc, model, excluded, m) {
            currentIndex := (idx + 1) % n;
            lastSelected := acc.id;
            return Some(acc);
          }
          seen := seen + {acc.id};
        }
        i := i + 1;
      }
      return None;
    }

    method NextAccount(model: string, excluded: set<string>, m: Moment) returns (r: Option<Account>)
      requires Valid()
      modifies this`currentIndex, this`lastSelected
      ensures Valid()
      ensures var (picked, next) := Pick(old(View()), old(Serving(model, excluded, m)));
              View() == next && (r.None? <==> picked.None?)
                  && (r.Some? ==> Some(r.value.id) == picked && r.value in accounts)
    {
      hide FirstOffset;
      if |accounts| == 0 { return None; }
      ghost var serving := Serving(model, excluded, m);
      assert serving - {} == serving;
      r := FindNextAvailable(model, excluded, true, m);
      if r.Some? { return; }
      r := FindNextAvailable(model, excluded, false, m);
    }

    /**
     The account for one attempt: the preferred one if it can serve now, and else the rotation's.
     It is None exactly when no slot can serve, and never an excluded account.
     */
    method GetPreferredForModelExcluding(preferredId: string, model: string, excluded: set<string>, m: Moment)
        returns (r: Option<Account>)
      requires Valid()
      modifies this`currentIndex, this`lastSelected
      ensures Valid()
      ensures var (served, next) := Serve(old(View()), Request(preferredId, old(Serving(model, excluded, m))));
              View() == next && (r.None? <==> served.None?)
                  && (r.Some? ==> Some(r.value.id) == served && r.value in accounts)
      ensures r.None? <==> forall i :: 0 <= i < |accounts| ==> !CanServe(accounts[i], model, excluded, m)
      ensures r.Some? ==> CanServe(r.value, model, excluded, m) && r.value.id !in excluded
    {
      hide Pick;
      ghost var rota, serving := View(), Serving(model, excluded, m);
      PickMeaning(rota, serving);
      if preferredId != "" {
        var i := 0;
        while i < |accounts|
          invariant 0 <= i <= |accounts|
          invariant forall k :: 0 <= k < i ==> accounts[k].id != preferredId
        {
          if accounts[i].id == preferredId {
            assert rota.ids[i] == preferredId;
            if CanServe(accounts[i], model, excluded, m) {
              return Some(accounts[i]);
            }
            break;
          }
          i := i + 1;
        }
        assert !PreferredHit(rota, Request(preferredId, serving));
      }
      r := NextAccount(model, excluded, m);
    }
  }

  /** The loop of Reload. */
  method BuildSlots(enabled: seq<Account>, allowOverUsage: bool) returns (weighted: seq<Account>, ids: seq<string>)
    ensures weighted == Weighted(enabled, allowOverUsage)
    ensures |ids| == |enabled| && forall i :: 0 <= i < |enabled| ==> ids[i] == enabled[i].id
  {
    hide Weighted, OutOfQuota, EffectiveWeight, Repeat;
    WeightedNone(allowOverUsage);
    assert enabled[..0] == [];
    weighted, ids := [], [];
    var i := 0;
    while i < |enabled|
      invariant 0 <= i <= |enabled|
      invariant |ids| == i && forall k :: 0 <= k < i ==> ids[k] == enabled[k].id
      invariant weighted == Weighted(enabled[..i], allowOverUsage)
    {
      var a := enabled[i];
      ids := ids + [a.id];
      WeightedSnoc(enabled, i, allowOverUsage);
      if !OutOfQuota(a, allowOverUsage) {
        weighted := weighted + Repeat(a, EffectiveWeight(a.weight));
      }
      i := i + 1;
    }
    assert enabled[..|enabled|] == enabled;
  }

  function Retokened(acc: Account, id: string, accessToken: string, refreshToken: string, expiresAt: int): Account {
    if acc.id != id then acc
    else
      acc.(accessToken := accessToken,
           refreshToken := if refreshToken != "" then refreshToken else acc.refreshToken,
           expiresAt := expiresAt)
  }

  lemma WeightedNone(allowOverUsage: bool)
    ensures Weighted([], allowOverUsage) == []
  {
  }

  lemma WeightedSnoc(enabled: seq<Account>, i: nat, allowOverUsage: bool)
    requires i < |enabled|
    ensures Weighted(enabled[..i + 1], allowOverUsage)
         == Weighted(enabled[..i], allowOverUsage) +
             (if OutOfQuota(enabled[i], allowOverUsage) then []
              else Repeat(enabled[i], EffectiveWeight(enabled[i].weight)))
  {
    assert enabled[..i + 1] == enabled[..i] + [enabled[i]];
    CollectConcat(enabled[..i], [enabled[i]], (a: Account) => if OutOfQuota(a, allowOverUsage) then []
                  else Repeat(a, EffectiveWeight(a.weight)));
    CollectOne(enabled[i], (a: Account) => if OutOfQuota(a, allowOverUsage) then []
               else Repeat(a, EffectiveWeight(a.weight)));
  }
}
