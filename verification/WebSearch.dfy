/**
 The hosted web search loop (proxy/claude_websearch.go): upstream rounds that ask for searches
 until one answers, and the accounting of what they cost.
 */
module WebSearch {
  import opened Text

  // ---------------------------------------------------------------- searches

  /** A tool call of a round: a search with its query, or a tool of the client's own. */
  datatype ToolUse = SearchUse(query: string) | ClientUse

  datatype SearchOutcome = InvalidInput | MaxUsesExceeded | Searched

  function ValidQueries(uses: seq<ToolUse>): nat {
    if uses == [] then 0 else (if uses[0].SearchUse? && uses[0].query != "" then 1 else 0) + ValidQueries(uses[1..])
  }

  function SearchesIn(outcomes: seq<SearchOutcome>): nat {
    if outcomes == [] then 0 else Cost(outcomes[0]) + SearchesIn(outcomes[1..])
  }

  /** A blank query costs nothing, others are served while the budget lasts. */
  function OutcomeOf(query: string, used: nat, maxUses: nat): SearchOutcome {
    if query == "" then InvalidInput else if used >= maxUses then MaxUsesExceeded else Searched
  }

  function Cost(o: SearchOutcome): nat {
    if o.Searched? then 1 else 0
  }

  /** Queries are served in order. */
  function Outcomes(uses: seq<ToolUse>, used: nat, maxUses: nat): seq<SearchOutcome>
    requires forall u :: u in uses ==> u.SearchUse?
  {
    if uses == [] then []
    else
      var o := OutcomeOf(uses[0].query, used, maxUses);
      [o] + Outcomes(uses[1..], used + Cost(o), maxUses)
  }

  method RunWebSearches(uses: seq<ToolUse>, used: nat, maxUses: nat) returns (outcomes: seq<SearchOutcome>, used': nat)
    requires forall u :: u in uses ==> u.SearchUse?
    ensures outcomes == Outcomes(uses, used, maxUses)
    ensures used' == used + SearchesIn(outcomes)
    ensures used <= maxUses ==> used' <= maxUses
  {
    outcomes, used' := [], used;
    assert uses[0..] == uses;
    var i := 0;
    while i < |uses|
      invariant 0 <= i <= |uses|
      invariant Outcomes(uses, used, maxUses) == outcomes + Outcomes(uses[i..], used', maxUses)
      invariant used' == used + SearchesIn(outcomes)
      invariant used <= maxUses ==> used' <= maxUses
    {
      assert uses[i] in uses && uses[i..][1..] == uses[i + 1..];
      var outcome := if uses[i].query == "" then InvalidInput else if used' >= maxUses then MaxUsesExceeded
          else Searched;
      if outcome == Searched { used' := used' + 1; }
      SearchesInSnoc(outcomes, outcome);
      ConcatAssociative(outcomes, [outcome], Outcomes(uses[i + 1..], used', maxUses));
      outcomes := outcomes + [outcome];
      i := i + 1;
    }
  }

  lemma {:induction false} SearchesInSnoc(outcomes: seq<SearchOutcome>, o: SearchOutcome)
    ensures SearchesIn(outcomes + [o]) == SearchesIn(outcomes) + Cost(o)
  {
    if outcomes == [] {
      assert outcomes + [o] == [o];
      assert [o][1..] == [];
    } else {
      SearchesInSnoc(outcomes[1..], o);
      assert (outcomes + [o])[1..] == outcomes[1..] + [o];
    }
  }

  /** As many searches run as there are queries, up to what is left of the budget. */
  lemma {:induction false} SearchesRun(uses: seq<ToolUse>, used: nat, maxUses: nat)
    requires used <= maxUses && forall u :: u in uses ==> u.SearchUse?
    ensures |Outcomes(uses, used, maxUses)| == |uses|
    ensures SearchesIn(Outcomes(uses, used, maxUses)) ==
            if ValidQueries(uses) <= maxUses - used then ValidQueries(uses) else maxUses - used
  {
    if uses != [] {
      assert uses[0] in uses;
      SearchesRun(uses[1..], used + Cost(OutcomeOf(uses[0].query, used, maxUses)), maxUses);
    }
  }

  /** Serving some uses and then others is serving them all. */
  lemma {:induction false} OutcomesConcat(a: seq<ToolUse>, b: seq<ToolUse>, used: nat, maxUses: nat)
    requires forall u :: u in a || u in b ==> u.SearchUse?
    ensures var first := Outcomes(a, used, maxUses);
            Outcomes(a + b, used, maxUses) == first + Outcomes(b, used + SearchesIn(first), maxUses)
    decreases |a|
  {
    hide *;
    if a == [] {
      NoOutcomes(used, maxUses);
      assert a + b == b && [] + Outcomes(b, used, maxUses) == Outcomes(b, used, maxUses);
    } else {
      assert (a + b)[0] == a[0] && (a + b)[1..] == a[1..] + b;
      FirstOutcome(a, used, maxUses);
      FirstOutcome(a + b, used, maxUses);
      var o := OutcomeOf(a[0].query, used, maxUses);
      var next := used + Cost(o);
      OutcomesConcat(a[1..], b, next, maxUses);
      var first := Outcomes(a[1..], next, maxUses);
      OneMoreOutcome(o, first);
      ConcatAssociative([o], first, Outcomes(b, next + SearchesIn(first), maxUses));
    }
  }

  lemma NoOutcomes(used: nat, maxUses: nat)
    ensures Outcomes([], used, maxUses) == [] && SearchesIn([]) == 0 && SearchUses([]) == []
  {
  }

  lemma {:induction false} SearchesConcat(a: seq<SearchOutcome>, b: seq<SearchOutcome>)
    ensures SearchesIn(a + b) == SearchesIn(a) + SearchesIn(b)
  {
    if a == [] {
      assert a + b == b;
    } else {
      SearchesConcat(a[1..], b);
      assert (a + b)[1..] == a[1..] + b;
    }
  }

  lemma FirstOutcome(uses: seq<ToolUse>, used: nat, maxUses: nat)
    requires uses != [] && forall u :: u in uses ==> u.SearchUse?
    ensures uses[0].SearchUse?
    ensures var o := OutcomeOf(uses[0].query, used, maxUses);
            Outcomes(uses, used, maxUses) == [o] + Outcomes(uses[1..], used + Cost(o), maxUses)
  {
    assert uses[0] in uses;
  }

  lemma OneMoreOutcome(one: SearchOutcome, rest: seq<SearchOutcome>)
    ensures SearchesIn([one] + rest) == Cost(one) + SearchesIn(rest)
  {
    assert ([one] + rest)[1..] == rest;
  }

  // ---------------------------------------------------------------- usage

  /** What one account spent on a loop. */
  datatype Share = Share(tokens: int, credits: real) {
    function Plus(other: Share): Share {
      Share(tokens + other.tokens, credits + other.credits)
    }
  }

  const NO_SHARE := Share(0, 0.0)

  ghost function SumShares(m: map<string, Share>): Share {
    if m == map[] then NO_SHARE
    else
      var k :| k in m;
      m[k].Plus(SumShares(m - {k}))
  }

  lemma {:induction false} SumSharesTakeOut(m: map<string, Share>, k: string)
    requires k in m
    ensures SumShares(m) == m[k].Plus(SumShares(m - {k}))
  {
    var first :| first in m && SumShares(m) == m[first].Plus(SumShares(m - {first}));
    if first != k {
      hide SumShares;
      var rest := m - {first} - {k};
      SumSharesTakeOut(m - {first}, k);
      SumSharesTakeOut(m - {k}, first);
      assert rest == m - {k} - {first};
      assert SumShares(m) == m[first].Plus(m[k].Plus(SumShares(rest)));
      assert SumShares(m - {k}) == m[first].Plus(SumShares(rest));
    }
  }

  lemma SumSharesOfNone()
    ensures SumShares(map[]) == NO_SHARE
  {
  }

  /** Adding to one share adds as much to the sum. */
  lemma SumSharesAdd(m: map<string, Share>, k: string, more: Share)
    ensures SumShares(m[k := (if k in m then m[k] else NO_SHARE).Plus(more)]) == SumShares(m).Plus(more)
  {
    hide SumShares;
    var m' := m[k := (if k in m then m[k] else NO_SHARE).Plus(more)];
    SumSharesTakeOut(m', k);
    if k in m {
      SumSharesTakeOut(m, k);
      assert m' - {k} == m - {k};
    } else {
      assert m' - {k} == m;
    }
  }

  class WebSearchLoopUsage {
    var inTokens: nat
    var outTokens: nat
    var credits: real
    var perAccount: map<string, Share>

    /** The shares of the accounts add up to the totals, and none is negative. */
    ghost predicate Valid()
      reads this
    {
      && SumShares(perAccount) == Share(inTokens + outTokens, credits)
      && forall id :: id in perAccount ==> perAccount[id].tokens >= 0 && perAccount[id].credits >= 0.0
    }

    constructor ()
      ensures Valid() && perAccount == map[] && inTokens == 0 && outTokens == 0 && credits == 0.0
    {
      inTokens, outTokens, credits, perAccount := 0, 0, 0.0, map[];
      SumSharesOfNone();
    }

    method Add(accountId: string, inTok: nat, outTok: nat, cred: real)
      requires Valid() && cred >= 0.0
      modifies this
      ensures Valid()
      ensures inTokens == old(inTokens) + inTok && outTokens == old(outTokens) + outTok
                && credits == old(credits) + cred
      ensures perAccount == old(perAccount)[accountId :=
                (if accountId in old(perAccount) then old(perAccount)[accountId]
                 else NO_SHARE).Plus(Share(inTok + outTok, cred))]
    {
      hide SumShares;
      SumSharesAdd(perAccount, accountId, Share(inTok + outTok, cred));
      inTokens, outTokens, credits := inTokens + inTok, outTokens + outTok, credits + cred;
      var share := if accountId in perAccount then perAccount[accountId] else NO_SHARE;
      perAccount := perAccount[accountId := share.Plus(Share(inTok + outTok, cred))];
    }
  }

  /** One write to an account's counters: AddUsage, or RecordOutcome when it counts the request. */
  datatype Credit = Credit(account: string, share: Share, countsRequest: bool)

  function SumCredits(credits: seq<Credit>): Share {
    if credits == [] then NO_SHARE else SumCredits(credits[..|credits| - 1]).Plus(credits[|credits| - 1].share)
  }

  /**
   The end of a loop: every account gets its own share once, the shares written add up to the
   loop's totals, and only the last account, if any, counts the request.  `last` is "" when no
   account was ever picked.
   */
  method RecordWebSearchLoop(last: string, usage: WebSearchLoopUsage) returns (credits: seq<Credit>)
    requires usage.Valid() && (usage.perAccount != map[] ==> last != "")
    ensures SumCredits(credits) == Share(usage.inTokens + usage.outTokens, usage.credits)
    ensures OncePerAccount(credits, usage.perAccount)
    ensures forall c :: c in credits ==> c.countsRequest == (c.account == last)
    ensures last != "" ==> exists c :: c in credits && c.account == last
  {
    hide SumShares, SumCredits, OncePerAccount;
    credits := AddUsageOfOthers(usage.perAccount, last);
    OwnAndOthers(usage.perAccount, last);
    if last != "" {
      var share := if last in usage.perAccount then usage.perAccount[last] else NO_SHARE;
      CreditAdded(credits, Credit(last, share, true), usage.perAccount);
      credits := credits + [Credit(last, share, true)];
      assert Credit(last, share, true) in credits;
    }
  }

  /** Every account but the last, in whatever order the map gives them; AddUsage skips empty shares. */
  method AddUsageOfOthers(shares: map<string, Share>, last: string) returns (credits: seq<Credit>)
    requires forall id :: id in shares ==> shares[id].tokens >= 0 && shares[id].credits >= 0.0
    ensures OncePerAccount(credits, shares)
    ensures forall c :: c in credits ==> c.account != last && !c.countsRequest
    ensures SumCredits(credits) == SumShares(shares - {last})
  {
    hide SumShares, SumCredits, OncePerAccount;
    credits := [];
    var others := shares - {last};
    SumCreditsOfNone(shares);
    SumSharesOfNone();
    while others.Keys != {}
      invariant others.Keys <= shares.Keys - {last}
      invariant forall id :: id in others.Keys ==> others[id] == shares[id]
      invariant OncePerAccount(credits, shares)
      invariant forall c :: c in credits ==> c.account !in others.Keys && c.account != last && !c.countsRequest
      invariant SumCredits(credits).Plus(SumShares(others)) == SumShares(shares - {last})
      decreases |others.Keys|
    {
      var id :| id in others.Keys;
      var share := others[id];
      SumSharesTakeOut(others, id);
      if share.tokens > 0 || share.credits > 0.0 {
        CreditAdded(credits, Credit(id, share, false), shares);
        credits := credits + [Credit(id, share, false)];
      }
      others := others - {id};
    }
    assert others == map[];
  }

  /** No account is credited twice, and each gets its own share. */
  ghost predicate OncePerAccount(credits: seq<Credit>, shares: map<string, Share>) {
    && (forall i, j :: 0 <= i < j < |credits| ==> credits[i].account != credits[j].account)
    && (forall c :: c in credits ==> c.share == if c.account in shares then shares[c.account] else NO_SHARE)
  }

  lemma SumCreditsOfNone(shares: map<string, Share>)
    ensures SumCredits([]) == NO_SHARE && OncePerAccount([], shares)
  {
  }

  lemma CreditAdded(credits: seq<Credit>, c: Credit, shares: map<string, Share>)
    requires OncePerAccount(credits, shares) && forall c' :: c' in credits ==> c'.account != c.account
    requires c.share == if c.account in shares then shares[c.account] else NO_SHARE
    ensures OncePerAccount(credits + [c], shares)
    ensures SumCredits(credits + [c]) == SumCredits(credits).Plus(c.share)
    ensures forall c' :: c' in credits + [c] <==> c' in credits || c' == c
  {
    var all := credits + [c];
    assert all[..|credits|] == credits;
    assert forall i :: 0 <= i < |credits| ==> all[i] == credits[i] && credits[i] in credits;
  }

  lemma {:induction false} OwnAndOthers(m: map<string, Share>, last: string)
    ensures SumShares(m - {last}).Plus(if last in m then m[last] else NO_SHARE) == SumShares(m)
  {
    hide SumShares;
    if last in m {
      SumSharesTakeOut(m, last);
    } else {
      assert m - {last} == m;
    }
  }

  // ---------------------------------------------------------------- the loop

  /**
   How one upstream round ends: with an answer from an account, or with an error, perhaps before any account
   was picked.
   */
  datatype Round =
    | Answered(account: string, inTokens: nat, outTokens: nat, credits: real, toolUses: seq<ToolUse>)
    | RoundFailed(lastAccount: string)

  ghost predicate ValidRound(r: Round) {
    r.Answered? ==> r.account != "" && r.credits >= 0.0
  }

  function SearchUses(uses: seq<ToolUse>): (s: seq<ToolUse>)
    ensures forall u :: u in s ==> u.SearchUse?
  {
    if uses == [] then [] else (if uses[0].SearchUse? then [uses[0]] else []) + SearchUses(uses[1..])
  }

  function ClientUses(uses: seq<ToolUse>): nat {
    if uses == [] then 0 else (if uses[0].ClientUse? then 1 else 0) + ClientUses(uses[1..])
  }

  datatype LoopEnd = Completed | Failed | ClientGone

  /** The totals of the rounds that answered. */
  function Spent(rounds: nat -> Round, n: nat): Share {
    if n == 0 then NO_SHARE
    else
      var r := rounds(n - 1);
      Spent(rounds, n - 1).Plus(if r.Answered? then Share(r.inTokens + r.outTokens, r.credits) else NO_SHARE)
  }

  /** What one account spent of it: the rounds it answered. */
  function SpentBy(rounds: nat -> Round, n: nat, account: string): Share {
    if n == 0 then NO_SHARE
    else
      var r := rounds(n - 1);
      SpentBy(rounds, n - 1, account).Plus(
        if r.Answered? && r.account == account then Share(r.inTokens + r.outTokens, r.credits) else NO_SHARE)
  }

  /** The account picked last, "" if none ever was. */
  function LastPicked(rounds: nat -> Round, n: nat): string {
    if n == 0 then ""
    else
      match rounds(n - 1)
      case Answered(account, _, _, _, _) => account
      case RoundFailed(account) => if account != "" then account else LastPicked(rounds, n - 1)
  }

  /** Every account's share is what its own rounds spent. */
  ghost predicate SharesAre(shares: map<string, Share>, rounds: nat -> Round, n: nat) {
    forall a :: (if a in shares then shares[a] else NO_SHARE) == SpentBy(rounds, n, a)
  }

  lemma SharesStep(shares: map<string, Share>, rounds: nat -> Round, n: nat)
    ensures SharesAre(map[], rounds, 0) && LastPicked(rounds, 0) == ""
    ensures SharesAre(shares, rounds, n) ==>
              var r := rounds(n);
              if r.Answered? then
                var own := if r.account in shares then shares[r.account] else NO_SHARE;
                SharesAre(shares[r.account := own.Plus(Share(r.inTokens + r.outTokens, r.credits))], rounds, n + 1)
              else SharesAre(shares, rounds, n + 1)
    ensures LastPicked(rounds, n + 1) ==
              match rounds(n)
              case Answered(account, _, _, _, _) => account
              case RoundFailed(account) => if account != "" then account else LastPicked(rounds, n)
  {
  }

  lemma SpentStep(rounds: nat -> Round, n: nat)
    requires ValidRound(rounds(n))
    ensures Spent(rounds, 0) == Share(0, 0.0)
    ensures var r, before := rounds(n), Spent(rounds, n);
            if r.Answered? then
              && r.account != "" && r.credits >= 0.0
              && Spent(rounds, n + 1) == Share(before.tokens + r.inTokens + r.outTokens, before.credits + r.credits)
            else Spent(rounds, n + 1) == before
  {
  }

  /** The searches asked for in the first n rounds, in order. */
  function AllSearches(rounds: nat -> Round, n: nat): (s: seq<ToolUse>)
    ensures forall u :: u in s ==> u.SearchUse?
  {
    if n == 0 then []
    else AllSearches(rounds, n - 1) + (if rounds(n - 1).Answered? then SearchUses(rounds(n - 1).toolUses) else [])
  }

  /** What these searches came to: the budget is one for all rounds. */
  function AllOutcomes(rounds: nat -> Round, n: nat, maxUses: nat): seq<SearchOutcome> {
    Outcomes(AllSearches(rounds, n), 0, maxUses)
  }

  lemma AllOutcomesStep(rounds: nat -> Round, n: nat, maxUses: nat)
    ensures AllOutcomes(rounds, 0, maxUses) == [] && SearchesIn([]) == 0
    ensures SearchesIn(AllOutcomes(rounds, n, maxUses)) <= maxUses
    ensures var before := AllOutcomes(rounds, n, maxUses);
            if rounds(n).RoundFailed? then AllOutcomes(rounds, n + 1, maxUses) == before
            else
              var more := Outcomes(SearchUses(rounds(n).toolUses), SearchesIn(before), maxUses);
              && AllOutcomes(rounds, n + 1, maxUses) == before + more
              && SearchesIn(before + more) == SearchesIn(before) + SearchesIn(more)
  {
    hide Outcomes, SearchesIn, SearchUses, ValidQueries;
    NoOutcomes(0, maxUses);
    var all := AllSearches(rounds, n);
    SearchesRun(all, 0, maxUses);
    if rounds(n).RoundFailed? {
      assert all + [] == all;
    } else {
      var uses, before := SearchUses(rounds(n).toolUses), AllOutcomes(rounds, n, maxUses);
      OutcomesConcat(all, uses, 0, maxUses);
      SearchesConcat(before, Outcomes(uses, SearchesIn(before), maxUses));
    }
  }

  /** A round the loop goes on from: it asked for searches and for nothing of the client's. */
  predicate AsksOnlySearches(r: Round) {
    r.Answered? && SearchUses(r.toolUses) != [] && ClientUses(r.toolUses) == 0
  }

  /** The loop went on after each of its first `n` rounds. */
  ghost predicate WentOn(rounds: nat -> Round, gone: nat -> bool, n: nat) {
    forall k :: 0 <= k < n ==> AsksOnlySearches(rounds(k)) && !gone(k)
  }

  lemma WentOnOnce(rounds: nat -> Round, gone: nat -> bool, n: nat)
    ensures WentOn(rounds, gone, 0)
    ensures WentOn(rounds, gone, n) && AsksOnlySearches(rounds(n)) && !gone(n) ==> WentOn(rounds, gone, n + 1)
  {
  }

  /** Why the loop stopped at its last round. */
  ghost predicate StoppedFor(end: LoopEnd, last: Round, gone: bool, made: nat, maxUses: nat) {
    match end
    case Failed => last.RoundFailed?
    case ClientGone => last.Answered? && gone
    case Completed => last.Answered? && !gone && (AsksOnlySearches(last) ==> made == maxUses + 2)
  }

  lemma StopOrGoOn(r: Round, gone: bool, roundIdx: nat, maxUses: nat)
    ensures AsksOnlySearches(r) <==> r.Answered? && |SearchUses(r.toolUses)| > 0 && ClientUses(r.toolUses) == 0
    ensures r.RoundFailed? ==> StoppedFor(Failed, r, gone, roundIdx + 1, maxUses)
    ensures r.Answered? && gone ==> StoppedFor(ClientGone, r, gone, roundIdx + 1, maxUses)
    ensures r.Answered? && !gone && (AsksOnlySearches(r) ==> roundIdx == maxUses + 1) ==>
              StoppedFor(Completed, r, gone, roundIdx + 1, maxUses)
  {
    hide SearchUses, ClientUses;
  }

  /** At most one write counts the request, and no account is written twice. */
  ghost predicate WrittenOnce(credits: seq<Credit>) {
    forall i, j :: 0 <= i < j < |credits| ==>
      credits[i].account != credits[j].account && !(credits[i].countsRequest && credits[j].countsRequest)
  }

  /**
   The loop: `rounds(k)` is what the k-th upstream round does and `gone(k)` whether the client has
   left when the searches of that round are done.  It makes at most maxUses + 2 rounds.  The searches
   asked for in all of them are served in order out of one budget, an answer presents their outcomes in
   that order, and what the loop credits is what its rounds spent.
   */
  method RunClaudeWebSearchLoop(rounds: nat -> Round, gone: nat -> bool, maxUses: nat)
      returns (end: LoopEnd, made: nat, searches: nat, presented: seq<SearchOutcome>, credits: seq<Credit>)
    requires forall k :: ValidRound(rounds(k))
    ensures 1 <= made <= maxUses + 2
    ensures var queries := ValidQueries(AllSearches(rounds, made));
            searches == if queries <= maxUses then queries else maxUses
    ensures end == Completed ==> presented == AllOutcomes(rounds, made, maxUses)
    ensures WentOn(rounds, gone, made - 1) && StoppedFor(end, rounds(made - 1), gone(made - 1), made, maxUses)
    ensures SumCredits(credits) == Spent(rounds, made)
    ensures WrittenOnce(credits)
    ensures forall c :: c in credits ==> c.share == SpentBy(rounds, made, c.account)
    ensures forall c :: c in credits ==> c.countsRequest == (c.account == LastPicked(rounds, made))
    ensures LastPicked(rounds, made) != "" ==> exists c :: c in credits && c.countsRequest
  {
    hide SumShares, SumCredits, Spent, SpentBy, WentOn, StoppedFor, LastPicked, AllSearches, ValidQueries;
    var usage: WebSearchLoopUsage, lastAccount: string;
    end, made, searches, presented, usage, lastAccount := RunRounds(rounds, gone, maxUses);
    SearchesRun(AllSearches(rounds, made), 0, maxUses);
    credits := RecordWebSearchLoop(lastAccount, usage);
    assert forall i :: 0 <= i < |credits| ==> credits[i] in credits;
  }

  method RunRounds(rounds: nat -> Round, gone: nat -> bool, maxUses: nat)
      returns (end: LoopEnd, made: nat, searches: nat, presented: seq<SearchOutcome>, usage: WebSearchLoopUsage,
               lastAccount: string)
    requires forall k :: ValidRound(rounds(k))
    ensures 1 <= made <= maxUses + 2
    ensures searches == SearchesIn(AllOutcomes(rounds, made, maxUses))
    ensures end == Completed ==> presented == AllOutcomes(rounds, made, maxUses)
    ensures WentOn(rounds, gone, made - 1) && StoppedFor(end, rounds(made - 1), gone(made - 1), made, maxUses)
    ensures fresh(usage) && usage.Valid() && (usage.perAccount != map[] ==> lastAccount != "")
    ensures Share(usage.inTokens + usage.outTokens, usage.credits) == Spent(rounds, made)
    ensures SharesAre(usage.perAccount, rounds, made) && lastAccount == LastPicked(rounds, made)
  {
    hide *;
    SpentStep(rounds, 0);
    SharesStep(map[], rounds, 0);
    WentOnOnce(rounds, gone, 0);
    AllOutcomesStep(rounds, 0, maxUses);
    usage := new WebSearchLoopUsage();
    lastAccount, made, searches, presented := "", 0, 0, [];
    while true
      invariant made <= maxUses + 1
      invariant presented == AllOutcomes(rounds, made, maxUses) && searches == SearchesIn(presented)
      invariant fresh(usage) && usage.Valid() && (usage.perAccount != map[] ==> lastAccount != "")
      invariant Share(usage.inTokens + usage.outTokens, usage.credits) == Spent(rounds, made)
      invariant SharesAre(usage.perAccount, rounds, made) && lastAccount == LastPicked(rounds, made)
      invariant WentOn(rounds, gone, made)
      decreases maxUses + 2 - made
    {
      var roundIdx := made;
      var round := rounds(roundIdx);
      made := made + 1;
      SpentStep(rounds, roundIdx);
      SharesStep(usage.perAccount, rounds, roundIdx);
      WentOnOnce(rounds, gone, roundIdx);
      StopOrGoOn(round, gone(roundIdx), roundIdx, maxUses);
      AllOutcomesStep(rounds, roundIdx, maxUses);
      if round.RoundFailed? {
        if round.lastAccount != "" { lastAccount := round.lastAccount; }
        return Failed, made, searches, presented, usage, lastAccount;
      }
      lastAccount := round.account;
      usage.Add(round.account, round.inTokens, round.outTokens, round.credits);
      var searchUses := SearchUses(round.toolUses);
      if |searchUses| > 0 && ClientUses(round.toolUses) == 0 && roundIdx <= maxUses {
        var outcomes, used := RunWebSearches(searchUses, searches, maxUses);
        searches, presented := used, presented + outcomes;
        if gone(roundIdx) { return ClientGone, made, searches, presented, usage, lastAccount; }
      } else {
        var outcomes, used := RunFinalSearches(round.toolUses, searches, maxUses);
        searches, presented := used, presented + outcomes;
        return if gone(roundIdx) then ClientGone else Completed, made, searches, presented, usage, lastAccount;
      }
    }
  }

  /** Searches next to client tools still run in the final round, in order and out of the same budget. */
  method RunFinalSearches(uses: seq<ToolUse>, used: nat, maxUses: nat)
      returns (outcomes: seq<SearchOutcome>, used': nat)
    requires used <= maxUses
    ensures outcomes == Outcomes(SearchUses(uses), used, maxUses) && used' == used + SearchesIn(outcomes)
    ensures used <= used' <= maxUses
    ensures used' - used == if ValidQueries(uses) <= maxUses - used then ValidQueries(uses) else maxUses - used
  {
    hide *;
    NoOutcomes(used, maxUses);
    outcomes, used' := [], used;
    assert uses[0..] == uses;
    assert [] + Outcomes(SearchUses(uses), used, maxUses) == Outcomes(SearchUses(uses), used, maxUses);
    SearchesRun(SearchUses(uses), used, maxUses);
    QueriesAreSearches(uses);
    var i := 0;
    while i < |uses|
      invariant 0 <= i <= |uses|
      invariant Outcomes(SearchUses(uses), used, maxUses) == outcomes + Outcomes(SearchUses(uses[i..]), used', maxUses)
      invariant used' == used + SearchesIn(outcomes) <= maxUses
    {
      assert uses[i..][1..] == uses[i + 1..] && uses[i..][0] == uses[i];
      SearchUsesStep(uses[i..]);
      if uses[i].SearchUse? {
        ServeOne(outcomes, uses[i..], used', maxUses);
        var one, more := RunWebSearches([uses[i]], used', maxUses);
        outcomes, used' := outcomes + one, more;
      }
      i := i + 1;
    }
    NoOutcomes(used', maxUses);
    assert uses[|uses|..] == [] && outcomes + [] == outcomes;
  }

  lemma SearchUsesStep(uses: seq<ToolUse>)
    requires uses != []
    ensures var rest := SearchUses(uses[1..]);
            SearchUses(uses) == if uses[0].SearchUse? then [uses[0]] + rest else rest
  {
  }

  lemma ServeOne(done: seq<SearchOutcome>, uses: seq<ToolUse>, used: nat, maxUses: nat)
    requires uses != [] && uses[0].SearchUse?
    ensures var one := Outcomes([uses[0]], used, maxUses);
            && done + Outcomes(SearchUses(uses), used, maxUses)
               == done + one + Outcomes(SearchUses(uses[1..]), used + SearchesIn(one), maxUses)
            && SearchesIn(done + one) == SearchesIn(done) + SearchesIn(one)
  {
    var o, rest := OutcomeOf(uses[0].query, used, maxUses), SearchUses(uses[1..]);
    SearchUsesStep(uses);
    OutcomesConcat([uses[0]], rest, used, maxUses);
    assert [uses[0]][1..] == [] && Outcomes([uses[0]], used, maxUses) == [o];
    hide Outcomes, SearchUses;
    OneMoreOutcome(o, []);
    assert [o] + [] == [o];
    SearchesInSnoc(done, o);
    ConcatAssociative(done, [o], Outcomes(rest, used + SearchesIn([o]), maxUses));
  }

  lemma {:induction false} QueriesAreSearches(uses: seq<ToolUse>)
    ensures ValidQueries(SearchUses(uses)) == ValidQueries(uses)
  {
    if uses != [] {
      QueriesAreSearches(uses[1..]);
      SearchUsesStep(uses);
      if uses[0].SearchUse? { assert SearchUses(uses)[1..] == SearchUses(uses[1..]); }
    }
  }
}
