/**
 The minute ring (proxy/observe.go, proxy/observe_persist.go): a day of traffic in 1440 slots that
 are reused in a circle, one ring for everyone and one for each account.  The reference is the plain
 request log: every reading of a ring is a sum over the log's rows.  Times are Unix seconds.
 */
module MinuteRing {
  const SLOTS := 1440

  datatype Count = Count(reqs: nat, successes: nat, failures: nat, retries: nat,
                         inTokens: nat, outTokens: nat, cacheRead: nat, cacheWrite: nat, credits: real) {
    function Plus(other: Count): Count {
      Count(reqs + other.reqs, successes + other.successes, failures + other.failures, retries + other.retries,
            inTokens + other.inTokens, outTokens + other.outTokens,
            cacheRead + other.cacheRead, cacheWrite + other.cacheWrite, credits + other.credits)
    }
  }

  const NONE := Count(0, 0, 0, 0, 0, 0, 0, 0, 0.0)

  lemma PlusNone()
    ensures forall c: Count :: c.Plus(NONE) == c && NONE.Plus(c) == c
  {
  }

  lemma PlusAssociative(a: Count, b: Count, c: Count)
    ensures a.Plus(b).Plus(c) == a.Plus(b.Plus(c))
  {
  }

  lemma PlusCommutes(a: Count, b: Count)
    ensures a.Plus(b) == b.Plus(a)
  {
  }

  /** A final client request, or one failed upstream attempt: what a minute's bucket gains by it. */
  function OfRequest(success: bool, inTokens: nat, outTokens: nat, cacheRead: nat, cacheWrite: nat,
                     credits: real): (c: Count)
    ensures c.reqs == c.successes + c.failures && c.retries == 0 && (success <==> c.failures == 0)
  {
    Count(1, if success then 1 else 0, if success then 0 else 1, 0, inTokens, outTokens, cacheRead, cacheWrite, credits)
  }

  const ONE_RETRY := Count(0, 0, 0, 1, 0, 0, 0, 0, 0.0)

  // ---------------------------------------------------------------- the log

  datatype Row = Row(minute: nat, account: string, count: Count)

  datatype Scope = Everyone | Only(account: string)

  predicate Concerns(row: Row, scope: Scope, lo: int, hi: int) {
    lo <= row.minute <= hi && (scope.Only? ==> row.account == scope.account)
  }

  /** The sum over the log's rows of the minutes lo..hi. */
  function SumIn(log: seq<Row>, scope: Scope, lo: int, hi: int): Count {
    if log == [] then NONE
    else
      var last := log[|log| - 1];
      SumIn(log[..|log| - 1], scope, lo, hi).Plus(if Concerns(last, scope, lo, hi) then last.count else NONE)
  }

  /** A figure added up over the rows in question, one row after the other. */
  function Added(log: seq<Row>, scope: Scope, lo: int, hi: int, figure: Count -> real): real {
    if log == [] then 0.0
    else
      (if Concerns(log[0], scope, lo, hi) then figure(log[0].count) else 0.0) + Added(log[1..], scope, lo, hi, figure)
  }

  lemma {:induction false} AddedSnoc(log: seq<Row>, row: Row, scope: Scope, lo: int, hi: int, figure: Count -> real)
    ensures Added(log + [row], scope, lo, hi, figure)
         == Added(log, scope, lo, hi, figure) + if Concerns(row, scope, lo, hi) then figure(row.count) else 0.0
  {
    hide Concerns;
    if log == [] {
      assert log + [row] == [row] && [row][1..] == [];
    } else {
      AddedSnoc(log[1..], row, scope, lo, hi, figure);
      assert (log + [row])[0] == log[0] && (log + [row])[1..] == log[1..] + [row];
    }
  }

  /** Every figure of a window is the arithmetic sum of that figure over the rows in the window. */
  lemma {:induction false} FiguresAddUp(log: seq<Row>, scope: Scope, lo: int, hi: int)
    ensures var sum := SumIn(log, scope, lo, hi);
            && sum.reqs as real == Added(log, scope, lo, hi, (c: Count) => c.reqs as real)
            && sum.successes as real == Added(log, scope, lo, hi, (c: Count) => c.successes as real)
            && sum.failures as real == Added(log, scope, lo, hi, (c: Count) => c.failures as real)
            && sum.retries as real == Added(log, scope, lo, hi, (c: Count) => c.retries as real)
            && sum.inTokens as real == Added(log, scope, lo, hi, (c: Count) => c.inTokens as real)
            && sum.outTokens as real == Added(log, scope, lo, hi, (c: Count) => c.outTokens as real)
            && sum.cacheRead as real == Added(log, scope, lo, hi, (c: Count) => c.cacheRead as real)
            && sum.cacheWrite as real == Added(log, scope, lo, hi, (c: Count) => c.cacheWrite as real)
            && sum.credits == Added(log, scope, lo, hi, (c: Count) => c.credits)
  {
    hide Concerns;
    if log != [] {
      var init, last := log[..|log| - 1], log[|log| - 1];
      assert log == init + [last];
      FiguresAddUp(init, scope, lo, hi);
      AddedSnoc(init, last, scope, lo, hi, (c: Count) => c.reqs as real);
      AddedSnoc(init, last, scope, lo, hi, (c: Count) => c.successes as real);
      AddedSnoc(init, last, scope, lo, hi, (c: Count) => c.failures as real);
      AddedSnoc(init, last, scope, lo, hi, (c: Count) => c.retries as real);
      AddedSnoc(init, last, scope, lo, hi, (c: Count) => c.inTokens as real);
      AddedSnoc(init, last, scope, lo, hi, (c: Count) => c.outTokens as real);
      AddedSnoc(init, last, scope, lo, hi, (c: Count) => c.cacheRead as real);
      AddedSnoc(init, last, scope, lo, hi, (c: Count) => c.cacheWrite as real);
      AddedSnoc(init, last, scope, lo, hi, (c: Count) => c.credits);
    }
  }

  lemma SumInSnoc(log: seq<Row>, row: Row, scope: Scope, lo: int, hi: int)
    ensures SumIn(log + [row], scope, lo, hi)
              == SumIn(log, scope, lo, hi).Plus(if Concerns(row, scope, lo, hi) then row.count else NONE)
  {
    hide Count.Plus;
    assert (log + [row])[..|log|] == log;
  }

  lemma {:induction false} SumInConcat(a: seq<Row>, b: seq<Row>, scope: Scope, lo: int, hi: int)
    ensures SumIn(a + b, scope, lo, hi) == SumIn(a, scope, lo, hi).Plus(SumIn(b, scope, lo, hi))
  {
    hide Count.Plus;
    if b == [] {
      assert a + b == a;
      PlusNone();
    } else {
      var init, last := b[..|b| - 1], b[|b| - 1];
      SumInConcat(a, init, scope, lo, hi);
      assert (a + b)[..|a + b| - 1] == a + init;
      PlusAssociative(SumIn(a, scope, lo, hi), SumIn(init, scope, lo, hi), if Concerns(last, scope, lo, hi)
                      then last.count else NONE);
    }
  }

  /** Adjacent windows add up. */
  lemma {:induction false} SumInSplit(log: seq<Row>, scope: Scope, lo: int, mid: int, hi: int)
    requires lo <= mid <= hi + 1
    ensures SumIn(log, scope, lo, hi) == SumIn(log, scope, lo, mid - 1).Plus(SumIn(log, scope, mid, hi))
  {
    hide Count.Plus;
    PlusNone();
    if log != [] {
      var init, c := log[..|log| - 1], log[|log| - 1].count;
      SumInSplit(init, scope, lo, mid, hi);
      var a, b := SumIn(init, scope, lo, mid - 1), SumIn(init, scope, mid, hi);
      PlusAssociative(a, b, c);
      PlusAssociative(a, c, b);
      PlusCommutes(b, c);
    }
  }

  /**
   In a log of requests and retries every request of a window succeeded or failed, so that the error rate is
   a share of all.
   */
  lemma {:induction false} RequestsSucceedOrFail(log: seq<Row>, scope: Scope, lo: int, hi: int)
    requires forall i :: 0 <= i < |log| ==> log[i].count.reqs == log[i].count.successes + log[i].count.failures
    ensures var c := SumIn(log, scope, lo, hi); c.reqs == c.successes + c.failures
  {
    if log != [] { RequestsSucceedOrFail(log[..|log| - 1], scope, lo, hi); }
  }

  lemma {:induction false} SumOfNothing(log: seq<Row>, scope: Scope, lo: int, hi: int)
    requires forall i :: 0 <= i < |log| ==> !Concerns(log[i], scope, lo, hi)
    ensures SumIn(log, scope, lo, hi) == NONE
  {
    hide Count.Plus;
    PlusNone();
    if log != [] { SumOfNothing(log[..|log| - 1], scope, lo, hi); }
  }

  // ---------------------------------------------------------------- one ring

  datatype Bucket = Bucket(windowMin: nat, count: Count)

  function Slot(minute: int): (k: nat)
    ensures k < SLOTS
  {
    minute % SLOTS
  }

  /** What a ring says of a minute: its slot's bucket, if that was last used in this very minute. */
  function ReadAt(slots: seq<Bucket>, minute: int): Count
    requires |slots| == SLOTS
  {
    var b := slots[Slot(minute)];
    if b.windowMin == minute then b.count else NONE
  }

  /** The ring after one addition: a slot that was used in another minute starts afresh. */
  function Touched(slots: seq<Bucket>, minute: nat, c: Count): (after: seq<Bucket>)
    requires |slots| == SLOTS
    ensures |after| == SLOTS
  {
    slots[Slot(minute) := Bucket(minute, ReadAt(slots, minute).Plus(c))]
  }

  predicate UpTo(log: seq<Row>, cur: nat) {
    forall i :: 0 <= i < |log| ==> log[i].minute <= cur
  }

  lemma UpToSnoc(log: seq<Row>, cur: nat, row: Row, now: nat)
    requires UpTo(log, cur) && cur <= now && row.minute <= now
    ensures UpTo(log + [row], now)
  {
  }

  /** The ring is right about every minute of the day that ends at `cur`. */
  ghost predicate Refines(slots: seq<Bucket>, log: seq<Row>, scope: Scope, cur: nat) {
    && |slots| == SLOTS
    && (forall k :: 0 <= k < SLOTS ==> slots[k].windowMin <= cur)
    && (forall m :: cur - SLOTS < m <= cur ==> ReadAt(slots, m) == SumIn(log, scope, m, m))
  }

  function EmptyRing(): (slots: seq<Bucket>)
    ensures |slots| == SLOTS && forall k :: 0 <= k < SLOTS ==> slots[k] == Bucket(0, NONE)
  {
    seq(SLOTS, _ => Bucket(0, NONE))
  }

  lemma EmptyRefines(log: seq<Row>, scope: Scope, cur: nat)
    requires forall i :: 0 <= i < |log| ==> scope.Only? && log[i].account != scope.account
    ensures Refines(EmptyRing(), log, scope, cur)
  {
    forall m ensures SumIn(log, scope, m, m) == NONE { SumOfNothing(log, scope, m, m); }
  }

  /** No reading changes as time goes by, except that old minutes drop out. */
  lemma RefinesLater(slots: seq<Bucket>, log: seq<Row>, scope: Scope, cur: nat, now: nat)
    requires Refines(slots, log, scope, cur) && UpTo(log, cur) && cur <= now
    ensures Refines(slots, log, scope, now)
  {
    hide SumIn, Count.Plus;
    forall m | now - SLOTS < m <= now ensures ReadAt(slots, m) == SumIn(log, scope, m, m) {
      if m > cur { SumOfNothing(log, scope, m, m); }
    }
  }

  lemma SlotsDiffer(a: int, b: int, now: int)
    requires now - SLOTS < a < b <= now
    ensures Slot(a) != Slot(b)
  {
  }

  /** Adding a row the ring is about. */
  lemma {:induction false} TouchRefines(slots: seq<Bucket>, log: seq<Row>, scope: Scope, cur: nat, row: Row)
    requires Refines(slots, log, scope, cur) && cur - SLOTS < row.minute <= cur
    requires scope.Only? ==> row.account == scope.account
    ensures Refines(Touched(slots, row.minute, row.count), log + [row], scope, cur)
  {
    hide SumIn, Count.Plus;
    PlusNone();
    var after := Touched(slots, row.minute, row.count);
    forall m | cur - SLOTS < m <= cur ensures ReadAt(after, m) == SumIn(log + [row], scope, m, m) {
      SumInSnoc(log, row, scope, m, m);
      assert ReadAt(slots, m) == SumIn(log, scope, m, m);
      if m < row.minute { SlotsDiffer(m, row.minute, cur); }
      if row.minute < m { SlotsDiffer(row.minute, m, cur); }
    }
  }

  /** Rows of other accounts do not concern an account's ring. */
  lemma {:induction false} OtherRefines(slots: seq<Bucket>, log: seq<Row>, account: string, cur: nat, row: Row)
    requires Refines(slots, log, Only(account), cur) && row.account != account
    ensures Refines(slots, log + [row], Only(account), cur)
  {
    hide SumIn, Count.Plus;
    PlusNone();
    forall m | cur - SLOTS < m <= cur ensures ReadAt(slots, m) == SumIn(log + [row], Only(account), m, m) {
      SumInSnoc(log, row, Only(account), m, m);
    }
  }

  method AddTo(ring: array<Bucket>, minute: nat, c: Count)
    requires ring.Length == SLOTS
    modifies ring
    ensures ring[..] == Touched(old(ring[..]), minute, c)
  {
    var slot := minute % SLOTS;
    if ring[slot].windowMin != minute {
      ring[slot] := Bucket(minute, NONE);
    }
    ring[slot] := Bucket(minute, ring[slot].count.Plus(c));
  }

  method NewRing() returns (ring: array<Bucket>)
    ensures fresh(ring) && ring.Length == SLOTS && ring[..] == EmptyRing()
  {
    ring := new Bucket[SLOTS](_ => Bucket(0, NONE));
  }

  // ---------------------------------------------------------------- what the rings hold

  /** An account's ring is right about the rows from the `start`-th on: it may have been dropped and begun anew. */
  ghost predicate RefinesFrom(view: seq<Bucket>, log: seq<Row>, start: nat, account: string, cur: nat) {
    start <= |log| && Refines(view, log[start..], Only(account), cur)
  }

  /**
   What a store has counted: the rows, from which of them on each account's ring counts, which
   accounts ever lost a ring, the last minute, and what the rings hold.
   */
  datatype Tally = Tally(log: seq<Row>, since: map<string, nat>, dropped: set<string>, cur: nat,
                         global: seq<Bucket>, views: map<string, seq<Bucket>>)

  ghost predicate RefinesAll(t: Tally) {
    UpTo(t.log, t.cur) && Refines(t.global, t.log, Everyone, t.cur) && ViewsRefine(t.views, t.log, t.since, t.cur)
  }

  ghost predicate ViewsRefine(views: map<string, seq<Bucket>>, log: seq<Row>, since: map<string, nat>, cur: nat) {
    && "" !in views
    && (forall a :: a in since ==> a in views)
    && (forall a :: a in views ==> a in since && |views[a]| == SLOTS && RefinesFrom(views[a], log, since[a], a, cur))
  }

  /** An account whose ring was never dropped has all its rows in it. */
  ghost predicate CoversUnlessDropped(log: seq<Row>, since: map<string, nat>, dropped: set<string>) {
    forall i :: 0 <= i < |log| && log[i].account != "" && log[i].account !in dropped ==>
      log[i].account in since && since[log[i].account] <= i
  }

  const MAX_RINGS := 200

  /** There are at most 200 rings, and none was dropped before a 201st account was seen. */
  predicate Bounded(held: set<string>, seen: set<string>, dropped: set<string>) {
    |held| <= MAX_RINGS && held <= seen && (dropped != {} ==> |seen| > MAX_RINGS)
  }

  /** Time passes and a row is added to everyone's ring and to its account's. */
  function Counted(t: Tally, row: Row, now: nat): Tally
    requires |t.global| == SLOTS && (row.account != "" ==> row.account in t.views && |t.views[row.account]| == SLOTS)
  {
    Tally(t.log + [row], t.since, t.dropped, now, Touched(t.global, row.minute, row.count),
          if row.account == "" then t.views
              else t.views[row.account := Touched(t.views[row.account], row.minute, row.count)])
  }

  lemma RowRefinesAll(t: Tally, row: Row, now: nat)
    requires RefinesAll(t) && t.cur <= now && now - SLOTS < row.minute <= now
    requires row.account == "" || row.account in t.views
    ensures RefinesAll(Counted(t, row, now))
  {
    TallySizes(t);
    hide Refines, Touched, RefinesFrom, UpTo, ViewsRefine;
    UpToSnoc(t.log, t.cur, row, now);
    RefinesLater(t.global, t.log, Everyone, t.cur, now);
    TouchRefines(t.global, t.log, Everyone, now, row);
    RowViewsRefine(t.views, t.log, t.since, t.cur, row, now);
  }

  lemma RowViewsRefine(views: map<string, seq<Bucket>>, log: seq<Row>, since: map<string, nat>, cur: nat, row: Row,
                       now: nat)
    requires ViewsRefine(views, log, since, cur) && UpTo(log, cur) && cur <= now && now - SLOTS < row.minute <= now
    requires row.account == "" || (row.account in views && |views[row.account]| == SLOTS)
    ensures ViewsRefine(if row.account == "" then views
                        else views[row.account := Touched(views[row.account], row.minute, row.count)], log + [row],
                            since, now)
  {
    hide Refines, Touched, RefinesFrom, UpTo;
    forall a | a in views
      ensures RefinesFrom(if a == row.account then Touched(views[a], row.minute, row.count)
                          else views[a], log + [row], since[a], a, now)
    {
      RowRefinesOne(views[a], log, since[a], a, cur, now, row);
    }
  }

  lemma RowRefinesOne(view: seq<Bucket>, log: seq<Row>, start: nat, a: string, cur: nat, now: nat, row: Row)
    requires |view| == SLOTS && UpTo(log, cur) && RefinesFrom(view, log, start, a, cur) && cur <= now
               && now - SLOTS < row.minute <= now
    ensures RefinesFrom(if a == row.account then Touched(view, row.minute, row.count)
                        else view, log + [row], start, a, now)
  {
    var tail := log[start..];
    hide Refines, Touched;
    assert (log + [row])[start..] == tail + [row];
    RefinesLater(view, tail, Only(a), cur, now);
    if a == row.account { TouchRefines(view, tail, Only(a), now, row); } else { OtherRefines(view, tail, a, now, row); }
  }

  // ---------------------------------------------------------------- giving out rings

  predicate IsOldest(touched: map<string, int>, victim: string) {
    victim in touched && forall id :: id in touched ==> touched[victim] <= touched[id]
  }

  /** The account touched longest ago; which one of several is up to the map's order. */
  method Oldest(touched: map<string, int>) returns (victim: string)
    requires exists id :: id in touched
    ensures IsOldest(touched, victim)
  {
    var rest := touched.Keys;
    victim :| victim in rest;
    while rest != {}
      invariant rest <= touched.Keys && victim in touched
      invariant forall id :: id in touched && id !in rest ==> touched[victim] <= touched[id]
      decreases rest
    {
      var id :| id in rest;
      if touched[id] < touched[victim] { victim := id; }
      rest := rest - {id};
    }
  }

  predicate Separate(globalRing: array<Bucket>, rings: map<string, array<Bucket>>) {
    && globalRing.Length == SLOTS
    && (forall a :: a in rings ==> rings[a].Length == SLOTS && rings[a] != globalRing)
    && (forall a, b :: a in rings && b in rings && rings[a] == rings[b] ==> a == b)
  }

  /** The arrays hold these buckets. */
  ghost predicate Holds(globalRing: array<Bucket>, rings: map<string, array<Bucket>>, global: seq<Bucket>,
                        views: map<string, seq<Bucket>>)
    reads globalRing, rings.Values
  {
    && globalRing[..] == global
    && (forall a :: a in views ==> a in rings)
    && forall a :: a in rings ==> a in views && rings[a][..] == views[a]
  }

  lemma DropKeepsSeparate(globalRing: array<Bucket>, rings: map<string, array<Bucket>>, global: seq<Bucket>,
                          views: map<string, seq<Bucket>>, victim: string)
    requires Separate(globalRing, rings) && Holds(globalRing, rings, global, views)
    ensures Separate(globalRing, rings - {victim}) && Holds(globalRing, rings - {victim}, global, views - {victim})
  {
  }

  lemma AddKeepsSeparate(globalRing: array<Bucket>, rings: map<string, array<Bucket>>, global: seq<Bucket>,
                         views: map<string, seq<Bucket>>,
                         account: string, ring: array<Bucket>)
    requires Separate(globalRing, rings) && Holds(globalRing, rings, global, views)
    requires ring.Length == SLOTS && ring[..] == EmptyRing() && ring != globalRing && ring !in rings.Values
    ensures Separate(globalRing, rings[account := ring])
              && Holds(globalRing, rings[account := ring], global, views[account := EmptyRing()])
  {
  }

  /** The real rings hold what the tally says; `seen` are the accounts seen so far. */
  ghost predicate Right(globalRing: array<Bucket>, rings: map<string, array<Bucket>>, touched: map<string, int>,
                        t: Tally, seen: set<string>)
    reads globalRing, rings.Values
  {
    Holds(globalRing, rings, t.global, t.views) && Kept(globalRing, rings, touched, t, seen)
  }

  ghost predicate Kept(globalRing: array<Bucket>, rings: map<string, array<Bucket>>, touched: map<string, int>,
                       t: Tally, seen: set<string>) {
    && Separate(globalRing, rings) && (forall a :: a in touched <==> a in rings)
    && (forall a :: a in rings <==> a in t.views)
    && RefinesAll(t)
    && Bounded(rings.Keys, seen, t.dropped)
    && CoversUnlessDropped(t.log, t.since, t.dropped)
  }

  function Dropped(t: Tally, victim: string): Tally {
    Tally(t.log, t.since - {victim}, t.dropped + {victim}, t.cur, t.global, t.views - {victim})
  }

  lemma DropRefinesAll(t: Tally, victim: string)
    requires RefinesAll(t)
    ensures RefinesAll(Dropped(t, victim))
  {
    hide Refines, RefinesFrom;
  }

  lemma {:induction false} DropRight(globalRing: array<Bucket>, rings: map<string, array<Bucket>>,
                                     touched: map<string, int>, t: Tally, seen: set<string>,
                  victim: string, account: string)
    requires Right(globalRing, rings, touched, t, seen)
    requires |rings| >= MAX_RINGS && victim in rings && account !in rings
    ensures Right(globalRing, rings - {victim}, touched - {victim}, Dropped(t, victim), seen + {account})
    ensures |rings - {victim}| < MAX_RINGS
  {
    hide RefinesAll, Separate, Holds, CoversUnlessDropped;
    CoversAfterDrop(t.log, t.since, t.dropped, victim);
    DropRefinesAll(t, victim);
    DropKeepsSeparate(globalRing, rings, t.global, t.views, victim);
    BoundedAfterDrop(rings.Keys, seen, t.dropped, account, victim);
    assert |rings| == |rings.Keys| && |rings - {victim}| == |(rings - {victim}).Keys|
        && (rings - {victim}).Keys == rings.Keys - {victim};
  }

  function WithRing(t: Tally, account: string): Tally {
    Tally(t.log, t.since[account := |t.log|], t.dropped, t.cur, t.global, t.views[account := EmptyRing()])
  }

  lemma NewRingIsLater(t: Tally, account: string)
    ensures var t' := WithRing(t, account); t'.log == t.log && t'.cur == t.cur && t'.global == t.global
  {
  }

  lemma NewRingRefinesAll(t: Tally, account: string)
    requires RefinesAll(t) && account != ""
    ensures RefinesAll(WithRing(t, account))
  {
    hide Refines;
    assert t.log[|t.log|..] == [];
    EmptyRefines([], Only(account), t.cur);
    assert RefinesFrom(EmptyRing(), t.log, |t.log|, account, t.cur);
    hide RefinesFrom;
  }

  lemma AddRight(globalRing: array<Bucket>, rings: map<string, array<Bucket>>, touched: map<string, int>, t: Tally,
                 seen: set<string>,
                 account: string, ring: array<Bucket>, now: int)
    requires Right(globalRing, rings, touched, t, seen) && |rings| < MAX_RINGS && account !in rings && account != ""
    requires ring.Length == SLOTS && ring[..] == EmptyRing() && ring != globalRing && ring !in rings.Values
    ensures Right(globalRing, rings[account := ring], touched[account := now], WithRing(t, account), seen + {account})
  {
    AddKept(globalRing, rings, touched, t, seen, account, ring, now);
    hide Kept, EmptyRing;
    KeptSeparate(globalRing, rings, touched, t, seen);
    hide Separate, Holds;
    AddKeepsSeparate(globalRing, rings, t.global, t.views, account, ring);
  }

  lemma AddKept(globalRing: array<Bucket>, rings: map<string, array<Bucket>>, touched: map<string, int>, t: Tally,
                seen: set<string>,
                account: string, ring: array<Bucket>, now: int)
    requires Kept(globalRing, rings, touched, t, seen) && |rings| < MAX_RINGS && account !in rings && account != ""
    requires ring.Length == SLOTS && ring != globalRing && ring !in rings.Values
    ensures Kept(globalRing, rings[account := ring], touched[account := now], WithRing(t, account), seen + {account})
  {
    assert account !in t.since;
    AddSeparate(globalRing, rings, account, ring);
    hide RefinesAll, Separate, EmptyRing, Bounded, CoversUnlessDropped;
    NewRingRefinesAll(t, account);
    CoversAfterNew(t.log, t.since, t.dropped, account);
    AddBounded(rings, seen, t.dropped, account, ring);
  }

  lemma AddBounded(rings: map<string, array<Bucket>>, seen: set<string>, dropped: set<string>, account: string,
                   ring: array<Bucket>)
    requires Bounded(rings.Keys, seen, dropped) && |rings| < MAX_RINGS
    ensures Bounded(rings[account := ring].Keys, seen + {account}, dropped)
  {
    assert |rings| == |rings.Keys|;
    BoundedAfterNew(rings.Keys, seen, dropped, account);
    assert rings[account := ring].Keys == rings.Keys + {account};
  }

  lemma AddSeparate(globalRing: array<Bucket>, rings: map<string, array<Bucket>>, account: string, ring: array<Bucket>)
    requires Separate(globalRing, rings) && ring.Length == SLOTS && ring != globalRing && ring !in rings.Values
    ensures Separate(globalRing, rings[account := ring])
  {
  }

  lemma CoversAfterNew(log: seq<Row>, since: map<string, nat>, dropped: set<string>, account: string)
    requires CoversUnlessDropped(log, since, dropped) && account !in since
    ensures CoversUnlessDropped(log, since[account := |log|], dropped)
  {
  }

  lemma CoversAfterDrop(log: seq<Row>, since: map<string, nat>, dropped: set<string>, victim: string)
    requires CoversUnlessDropped(log, since, dropped)
    ensures CoversUnlessDropped(log, since - {victim}, dropped + {victim})
  {
  }

  lemma KnownRight(globalRing: array<Bucket>, rings: map<string, array<Bucket>>, touched: map<string, int>, t: Tally,
                   seen: set<string>,
                   account: string, now: int)
    requires Right(globalRing, rings, touched, t, seen) && account in rings
    ensures Right(globalRing, rings, touched[account := now], t, seen + {account})
  {
    hide RefinesAll, Separate, Holds, Bounded, CoversUnlessDropped;
    BoundedStays(rings.Keys, seen, t.dropped, account);
  }

  lemma BoundedStays(held: set<string>, seen: set<string>, dropped: set<string>, account: string)
    requires Bounded(held, seen, dropped) && account in held
    ensures Bounded(held, seen + {account}, dropped)
  {
    assert seen + {account} == seen;
  }

  lemma BoundedAfterNew(held: set<string>, seen: set<string>, dropped: set<string>, account: string)
    requires Bounded(held, seen, dropped) && |held| < MAX_RINGS
    ensures Bounded(held + {account}, seen + {account}, dropped)
  {
    SetsGrow(seen, seen + {account});
  }

  lemma BoundedAfterDrop(held: set<string>, seen: set<string>, dropped: set<string>, account: string, victim: string)
    requires Bounded(held, seen, dropped) && |held| >= MAX_RINGS && account !in held
    ensures Bounded(held - {victim}, seen + {account}, dropped + {victim})
  {
    SetsGrow(held + {account}, seen + {account});
    SetsGrow(held - {victim}, held);
  }

  lemma SetsGrow<T>(a: set<T>, b: set<T>)
    requires a <= b
    ensures |a| <= |b|
  {
    assert a + (b - a) == b;
  }

  /**
   Which accounts have rings after one was asked for, from which row of the log on each counts, and
   when it was last touched: nothing but the asked account and a dropped victim changes.
   */
  ghost predicate RingGiven(touched: map<string, int>, touched': map<string, int>, t: Tally, t': Tally,
                            account: string, now: int) {
    if account in touched then
      touched' == touched[account := now] && t'.since == t.since && t'.dropped == t.dropped
    else if |touched| < MAX_RINGS then
      touched' == touched[account := now] && t'.since == t.since[account := |t.log|] && t'.dropped == t.dropped
    else exists victim :: IsOldest(touched, victim) && VictimGone(touched, touched', t, t', account, now, victim)
  }

  ghost predicate VictimGone(touched: map<string, int>, touched': map<string, int>, t: Tally, t': Tally,
                             account: string, now: int, victim: string) {
    && touched' == (touched - {victim})[account := now]
    && t'.since == (t.since - {victim})[account := |t.log|] && t'.dropped == t.dropped + {victim}
  }

  lemma RingsTouched(globalRing: array<Bucket>, rings: map<string, array<Bucket>>, touched: map<string, int>, t: Tally,
                     seen: set<string>)
    requires Right(globalRing, rings, touched, t, seen)
    ensures touched.Keys == rings.Keys && |touched| == |rings|
  {
    hide RefinesAll, Separate, Holds, CoversUnlessDropped, Bounded;
    assert touched.Keys == rings.Keys && |touched| == |touched.Keys| && |rings| == |rings.Keys|;
  }

  /** A full store has dropped the account touched longest ago. */
  ghost predicate RoomMade(rings: map<string, array<Bucket>>, rings': map<string, array<Bucket>>,
                           touched: map<string, int>, touched': map<string, int>, t: Tally, t': Tally) {
    if |touched| < MAX_RINGS then rings' == rings && touched' == touched && t' == t
    else
      exists victim :: IsOldest(touched, victim) && rings' == rings - {victim}
                       && touched' == touched - {victim} && t' == Dropped(t, victim)
  }

  lemma VictimMakesRoom(rings: map<string, array<Bucket>>, touched: map<string, int>, t: Tally, victim: string)
    requires |touched| >= MAX_RINGS && IsOldest(touched, victim)
    ensures RoomMade(rings, rings - {victim}, touched, touched - {victim}, t, Dropped(t, victim))
  {
    hide IsOldest;
  }

  lemma KnownRings(rings: map<string, array<Bucket>>, rings': map<string, array<Bucket>>,
                   touched: map<string, int>, touched': map<string, int>, t: Tally, t': Tally)
    requires RoomMade(rings, rings', touched, touched', t, t')
    ensures forall a :: a in rings' ==> a in rings && rings'[a] == rings[a]
    ensures t'.log == t.log && t'.cur == t.cur && t'.global == t.global
    ensures |touched| < MAX_RINGS ==> t' == t
  {
    hide IsOldest;
  }

  lemma RingIsGiven(rings: map<string, array<Bucket>>, rings': map<string, array<Bucket>>,
                    touched: map<string, int>, room: map<string, int>, t: Tally, roomy: Tally, account: string,
                    now: int)
    requires account !in touched && RoomMade(rings, rings', touched, room, t, roomy)
    ensures RingGiven(touched, room[account := now], t, WithRing(roomy, account), account, now)
  {
    hide IsOldest, EmptyRing;
    if |touched| >= MAX_RINGS {
      var victim :| IsOldest(touched, victim) && rings' == rings - {victim} && room == touched - {victim}
                    && roomy == Dropped(t, victim);
      assert VictimGone(touched, room[account := now], t, WithRing(roomy, account), account, now, victim);
    }
  }

  /** A full store drops the ring of the account touched longest ago. */
  method MakeRoom(globalRing: array<Bucket>, rings: map<string, array<Bucket>>, touched: map<string, int>,
                  ghost t: Tally, ghost seen: set<string>, account: string)
      returns (rings': map<string, array<Bucket>>, touched': map<string, int>, ghost t': Tally)
    requires Right(globalRing, rings, touched, t, seen) && account !in rings
    ensures Right(globalRing, rings', touched', t', seen + {account}) && |rings'| < MAX_RINGS
    ensures RoomMade(rings, rings', touched, touched', t, t')
  {
    RingsTouched(globalRing, rings, touched, t, seen);
    if |rings| < MAX_RINGS {
      RoomLeft(globalRing, rings, touched, t, seen, account);
      return rings, touched, t;
    }
    FullHasSome(globalRing, rings, touched, t, seen);
    hide *;
    var victim := Oldest(touched);
    FullStays(globalRing, rings, touched, t, seen, victim);
    DropRight(globalRing, rings, touched, t, seen, victim, account);
    VictimMakesRoom(rings, touched, t, victim);
    return rings - {victim}, touched - {victim}, Dropped(t, victim);
  }

  lemma RoomLeft(globalRing: array<Bucket>, rings: map<string, array<Bucket>>, touched: map<string, int>, t: Tally,
                 seen: set<string>, account: string)
    requires Right(globalRing, rings, touched, t, seen)
    ensures Right(globalRing, rings, touched, t, seen + {account})
  {
    hide RefinesAll, Separate, Holds, CoversUnlessDropped;
    SetsGrow(seen, seen + {account});
  }

  lemma FullHasSome(globalRing: array<Bucket>, rings: map<string, array<Bucket>>, touched: map<string, int>, t: Tally,
                    seen: set<string>)
    requires Right(globalRing, rings, touched, t, seen) && |rings| >= MAX_RINGS
    ensures exists id :: id in touched
  {
    hide RefinesAll, Separate, Holds, CoversUnlessDropped, Bounded;
    assert rings != map[];
    var id :| id in rings;
  }

  lemma FullStays(globalRing: array<Bucket>, rings: map<string, array<Bucket>>, touched: map<string, int>, t: Tally,
                  seen: set<string>, victim: string)
    requires Right(globalRing, rings, touched, t, seen) && IsOldest(touched, victim)
    ensures victim in rings
  {
    hide RefinesAll, Separate, Holds, CoversUnlessDropped, Bounded;
  }

  /** A known account keeps its ring; a new one gets an empty one, after room was made. */
  method GetOrCreateAccountRing(globalRing: array<Bucket>, rings: map<string, array<Bucket>>, touched: map<string, int>,
                                ghost t: Tally, ghost seen: set<string>, account: string, now: int)
      returns (rings': map<string, array<Bucket>>, touched': map<string, int>, ghost t': Tally)
    requires Right(globalRing, rings, touched, t, seen) && account != ""
    ensures Right(globalRing, rings', touched', t', seen + {account}) && account in rings'
    ensures t'.log == t.log && t'.cur == t.cur && t'.global == t.global
    ensures forall a :: a in rings' ==> (a in rings && rings'[a] == rings[a]) || fresh(rings'[a])
    ensures account in rings ==> t' == t && rings' == rings
    ensures account !in rings && |rings| < MAX_RINGS ==> t' == WithRing(t, account)
    ensures RingGiven(touched, touched', t, t', account, now)
  {
    RingsTouched(globalRing, rings, touched, t, seen);
    if account in rings {
      hide Right, IsOldest;
      KnownRight(globalRing, rings, touched, t, seen, account, now);
      return rings, touched[account := now], t;
    }
    hide *;
    rings', touched', t' := CreateRing(globalRing, rings, touched, t, seen, account, now);
  }

  method CreateRing(globalRing: array<Bucket>, rings: map<string, array<Bucket>>, touched: map<string, int>,
                    ghost t: Tally, ghost seen: set<string>, account: string, now: int)
      returns (rings': map<string, array<Bucket>>, touched': map<string, int>, ghost t': Tally)
    requires Right(globalRing, rings, touched, t, seen) && account != "" && account !in rings && account !in touched
    ensures Right(globalRing, rings', touched', t', seen + {account}) && account in rings'
    ensures t'.log == t.log && t'.cur == t.cur && t'.global == t.global
    ensures forall a :: a in rings' ==> (a in rings && rings'[a] == rings[a]) || fresh(rings'[a])
    ensures |touched| < MAX_RINGS ==> t' == WithRing(t, account)
    ensures RingGiven(touched, touched', t, t', account, now)
  {
    hide *;
    var room, roomTouched;
    ghost var roomy;
    room, roomTouched, roomy := MakeRoom(globalRing, rings, touched, t, seen, account);
    RingIsGiven(rings, room, touched, roomTouched, t, roomy, account, now);
    KnownRings(rings, room, touched, roomTouched, t, roomy);
    var ring := NewRing();
    AddRight(globalRing, room, roomTouched, roomy, seen + {account}, account, ring, now);
    assert seen + {account} + {account} == seen + {account};
    NewRingIsLater(roomy, account);
    return room[account := ring], roomTouched[account := now], WithRing(roomy, account);
  }

  // ---------------------------------------------------------------- readings

  /** Two logs that no reading of the last `window` minutes up to `cur` can tell apart. */
  ghost predicate SameSums(a: seq<Row>, b: seq<Row>, scopeA: Scope, scopeB: Scope, cur: nat, window: nat) {
    forall lo, hi :: cur - window < lo && hi <= cur ==> SumIn(a, scopeA, lo, hi) == SumIn(b, scopeB, lo, hi)
  }

  datatype Series = Series(rpm: seq<nat>, errRate: seq<real>, inTpm: seq<nat>, outTpm: seq<nat>, credits: seq<real>)

  datatype Snapshot = Snapshot(rpm1: nat, rpm5Avg: real, errRate5: real, inTpm5: real, outTpm5: real, credits5: real,
                               credits60: real, errors60: nat, successes60: nat, retries60: nat, series: Series)

  const SERIES_MIN := 30

  function Ratio(part: nat, whole: nat): real {
    if whole > 0 then part as real / whole as real else 0.0
  }

  /** The sum over everyone's rows of the last n minutes, the current one included. */
  function Last(log: seq<Row>, cur: nat, n: nat): Count {
    SumIn(log, Everyone, cur - n + 1, cur)
  }

  /** The k-th of the 30 series minutes, oldest first. */
  function SeriesMinute(log: seq<Row>, cur: nat, k: nat): Count {
    SumIn(log, Everyone, cur - (SERIES_MIN - 1 - k), cur - (SERIES_MIN - 1 - k))
  }

  /** The overview as sums over the log. */
  function SnapshotOf(log: seq<Row>, cur: nat): Snapshot {
    var five, hour := Last(log, cur, 5), Last(log, cur, 60);
    Snapshot(Last(log, cur, 1).reqs, five.reqs as real / 5.0, Ratio(five.failures, five.failures + five.successes),
             five.inTokens as real / 5.0, five.outTokens as real / 5.0, five.credits,
             hour.credits, hour.failures, hour.successes, hour.retries, SeriesOf(log, cur))
  }

  function SeriesOf(log: seq<Row>, cur: nat): Series {
    Series(seq(SERIES_MIN, (k: nat) => SeriesMinute(log, cur, k).reqs),
           seq(SERIES_MIN, (k: nat) => Ratio(SeriesMinute(log, cur, k).failures, SeriesMinute(log, cur, k).reqs)),
           seq(SERIES_MIN, (k: nat) => SeriesMinute(log, cur, k).inTokens),
           seq(SERIES_MIN, (k: nat) => SeriesMinute(log, cur, k).outTokens),
           seq(SERIES_MIN, (k: nat) => SeriesMinute(log, cur, k).credits))
  }

  lemma SameSnapshot(a: seq<Row>, b: seq<Row>, cur: nat)
    requires SameSums(a, b, Everyone, Everyone, cur, SLOTS)
    ensures SnapshotOf(a, cur) == SnapshotOf(b, cur)
  {
    hide SumIn;
    assert SeriesOf(a, cur) == SeriesOf(b, cur) by {
      forall k: nat | k < SERIES_MIN ensures SeriesMinute(a, cur, k) == SeriesMinute(b, cur, k) { }
    }
  }

  /** A slot is reused, so it may hold another minute's bucket: then it counts for nothing. */
  method ReadMinute(ring: array<Bucket>, ghost log: seq<Row>, ghost scope: Scope, cur: nat, i: nat) returns (c: Count)
    requires Refines(ring[..], log, scope, cur) && i < SLOTS
    ensures c == SumIn(log, scope, cur - i, cur - i)
  {
    hide SumIn;
    var idx := (cur % SLOTS - i + SLOTS) % SLOTS;
    assert idx == Slot(cur - i);
    var b := ring[idx];
    assert b == ring[..][idx];
    assert ReadAt(ring[..], cur - i) == SumIn(log, scope, cur - i, cur - i);
    c := if b.windowMin != cur - i then NONE else b.count;
  }

  lemma LastStep(log: seq<Row>, cur: nat, i: nat)
    ensures Last(log, cur, i + 1) == SumIn(log, Everyone, cur - i, cur - i).Plus(Last(log, cur, i))
    ensures Last(log, cur, 0) == NONE
  {
    hide SumIn, Count.Plus;
    SumInSplit(log, Everyone, cur - i, cur - i + 1, cur);
    SumOfNothing(log, Everyone, cur + 1, cur);
  }

  /** The series with its last i minutes filled in. */
  ghost predicate SeriesFilled(s: Series, log: seq<Row>, cur: nat, i: nat) {
    && |s.rpm| == |s.errRate| == |s.inTpm| == |s.outTpm| == |s.credits| == SERIES_MIN
    && forall k: nat :: SERIES_MIN - i <= k < SERIES_MIN ==>
         var c := SeriesMinute(log, cur, k);
         s.rpm[k] == c.reqs && s.errRate[k] == Ratio(c.failures, c.reqs) && s.inTpm[k] == c.inTokens
             && s.outTpm[k] == c.outTokens
         && s.credits[k] == c.credits
  }

  method FillSeries(s: Series, ghost log: seq<Row>, cur: nat, i: nat, c: Count) returns (s': Series)
    requires i < SERIES_MIN && SeriesFilled(s, log, cur, i) && c == SumIn(log, Everyone, cur - i, cur - i)
    ensures SeriesFilled(s', log, cur, i + 1)
  {
    hide SumIn;
    var at := SERIES_MIN - 1 - i;
    s' := Series(s.rpm[at := c.reqs], s.errRate[at := Ratio(c.failures, c.reqs)], s.inTpm[at := c.inTokens],
                 s.outTpm[at := c.outTokens], s.credits[at := c.credits]);
  }

  lemma SeriesFull(s: Series, log: seq<Row>, cur: nat)
    requires SeriesFilled(s, log, cur, SERIES_MIN)
    ensures s == SeriesOf(log, cur)
  {
    hide SumIn, SeriesMinute, Ratio;
  }

  /** The overview read off the ring is the overview of the log. */
  method OverviewOf(ring: array<Bucket>, ghost log: seq<Row>, cur: nat) returns (snapshot: Snapshot)
    requires Refines(ring[..], log, Everyone, cur)
    ensures snapshot == SnapshotOf(log, cur)
  {
    hide SumIn, Last, SeriesFilled, SeriesOf, Refines, Ratio;
    var rpm1: nat, rpm5Total: nat, errs5: nat, succ5: nat, errs60: nat, succ60: nat, retries60: nat :=
        0, 0, 0, 0, 0, 0, 0;
    var inTok5: nat, outTok5: nat, credits5, credits60 := 0, 0, 0.0, 0.0;
    var series := EmptySeries(log, cur);
    LastStep(log, cur, 0);
    var i := 0;
    while i < 60
      invariant 0 <= i <= 60
      invariant var one := Last(log, cur, if i < 1 then i else 1); rpm1 == one.reqs
      invariant var five := Last(log, cur, if i < 5 then i else 5);
                rpm5Total == five.reqs && errs5 == five.failures && succ5 == five.successes
                && inTok5 == five.inTokens && outTok5 == five.outTokens && credits5 == five.credits
      invariant var hour := Last(log, cur, i);
                errs60 == hour.failures && succ60 == hour.successes && retries60 == hour.retries
                    && credits60 == hour.credits
      invariant SeriesFilled(series, log, cur, if i < SERIES_MIN then i else SERIES_MIN)
    {
      var b := ReadMinute(ring, log, Everyone, cur, i);
      LastStep(log, cur, i);
      if i < 1 { rpm1 := rpm1 + b.reqs; }
      if i < 5 {
        rpm5Total, errs5, succ5 := rpm5Total + b.reqs, errs5 + b.failures, succ5 + b.successes;
        inTok5, outTok5, credits5 := inTok5 + b.inTokens, outTok5 + b.outTokens, credits5 + b.credits;
      }
      if i < SERIES_MIN { series := FillSeries(series, log, cur, i, b); }
      errs60, succ60, retries60, credits60 :=
          errs60 + b.failures, succ60 + b.successes, retries60 + b.retries, credits60 + b.credits;
      i := i + 1;
    }
    SeriesFull(series, log, cur);
    snapshot := Snapshot(rpm1, rpm5Total as real / 5.0, Ratio(errs5, errs5 + succ5), inTok5 as real / 5.0,
                         outTok5 as real / 5.0,
                         credits5, credits60, errs60, succ60, retries60, series);
  }

  method EmptySeries(ghost log: seq<Row>, cur: nat) returns (s: Series)
    ensures SeriesFilled(s, log, cur, 0)
  {
    s := Series(seq(SERIES_MIN, _ => 0), seq(SERIES_MIN, _ => 0.0), seq(SERIES_MIN, _ => 0), seq(SERIES_MIN, _ => 0),
                seq(SERIES_MIN, _ => 0.0));
  }

  // ---------------------------------------------------------------- the heatmap

  datatype Cell = Cell(offset: nat, reqs: nat, failures: nat, retries: nat, credits: real) {
    predicate Empty() { reqs == 0 && failures == 0 && retries == 0 && credits == 0.0 }
  }

  function Min(a: nat, b: nat): nat {
    if a < b then a else b
  }

  /** What the n-th bucket of `bucket` minutes back from the current one holds, cut off at the window. */
  function BucketSum(log: seq<Row>, scope: Scope, cur: nat, window: nat, bucket: nat, n: nat): Count {
    SumIn(log, scope, cur - Min((n + 1) * bucket, window) + 1, cur - n * bucket)
  }

  function CellOf(n: nat, c: Count): Cell {
    Cell(n, c.reqs, c.failures, c.retries, c.credits)
  }

  /** The first n buckets' cells; a sparse heatmap leaves out the empty ones. */
  function CellsOf(log: seq<Row>, scope: Scope, cur: nat, window: nat, bucket: nat, sparse: bool, n: nat): seq<Cell> {
    if n == 0 then []
    else
      var cell := CellOf(n - 1, BucketSum(log, scope, cur, window, bucket, n - 1));
      CellsOf(log, scope, cur, window, bucket, sparse, n - 1) + (if sparse && cell.Empty() then [] else [cell])
  }

  function Buckets(window: nat, bucket: nat): nat
    requires bucket > 0
  {
    (window + bucket - 1) / bucket
  }

  method Collect(ring: array<Bucket>, ghost log: seq<Row>, ghost scope: Scope, cur: nat, window: nat, bucket: nat,
                 sparse: bool)
      returns (cells: seq<Cell>)
    requires Refines(ring[..], log, scope, cur) && 0 < bucket <= window <= SLOTS
    ensures cells == CellsOf(log, scope, cur, window, bucket, sparse, Buckets(window, bucket))
  {
    hide BucketSum, Refines, Buckets, CellOf;
    cells := [];
    var n := 0;
    while n < Buckets(window, bucket)
      invariant 0 <= n <= Buckets(window, bucket)
      invariant cells == CellsOf(log, scope, cur, window, bucket, sparse, n)
    {
      BucketStarts(window, bucket, n);
      var c := CollectBucket(ring, log, scope, cur, window, bucket, n);
      var cell := CellOf(n, c);
      if !(sparse && cell.Empty()) {
        cells := cells + [cell];
      }
      n := n + 1;
    }
  }

  method CollectBucket(ring: array<Bucket>, ghost log: seq<Row>, ghost scope: Scope, cur: nat, window: nat,
                       bucket: nat, n: nat) returns (c: Count)
    requires Refines(ring[..], log, scope, cur) && window <= SLOTS && n * bucket < window
    ensures c == BucketSum(log, scope, cur, window, bucket, n)
  {
    hide SumIn, Refines, Count.Plus;
    PlusNone();
    c := NONE;
    var first, stop := n * bucket, Min((n + 1) * bucket, window);
    NothingBetween(log, scope, cur, first);
    var i := first;
    while i < stop
      invariant first <= i <= stop
      invariant c == SumIn(log, scope, cur - i + 1, cur - first)
    {
      var b := ReadMinute(ring, log, scope, cur, i);
      SumInSplit(log, scope, cur - i, cur - i + 1, cur - first);
      PlusCommutes(b, c);
      c := c.Plus(b);
      i := i + 1;
    }
  }

  lemma NothingBetween(log: seq<Row>, scope: Scope, cur: nat, first: nat)
    ensures SumIn(log, scope, cur - first + 1, cur - first) == NONE
  {
    hide SumIn;
    SumOfNothing(log, scope, cur - first + 1, cur - first);
  }

  datatype Totals = Totals(reqs: nat, failures: nat, retries: nat, credits: real)

  function TotalsOf(c: Count): Totals {
    Totals(c.reqs, c.failures, c.retries, c.credits)
  }

  function CellTotals(cells: seq<Cell>): Totals {
    if cells == [] then Totals(0, 0, 0, 0.0)
    else
      var t, c := CellTotals(cells[..|cells| - 1]), cells[|cells| - 1];
      Totals(t.reqs + c.reqs, t.failures + c.failures, t.retries + c.retries, t.credits + c.credits)
  }

  /** However the window is cut into buckets, dense or sparse, its cells add up to the log's total for the window. */
  lemma HeatmapConserves(log: seq<Row>, scope: Scope, cur: nat, window: nat, bucket: nat, sparse: bool)
    requires 0 < bucket <= window
    ensures CellTotals(CellsOf(log, scope, cur, window, bucket, sparse, Buckets(window, bucket)))
            == TotalsOf(SumIn(log, scope, cur - window + 1, cur))
  {
    var n := Buckets(window, bucket);
    assert n * bucket >= window;
    CellsUpTo(log, scope, cur, window, bucket, sparse, n);
  }

  lemma {:induction false} CellsUpTo(log: seq<Row>, scope: Scope, cur: nat, window: nat, bucket: nat, sparse: bool,
                                     n: nat)
    requires 0 < bucket <= window && n <= Buckets(window, bucket)
    ensures CellTotals(CellsOf(log, scope, cur, window, bucket, sparse, n))
              == TotalsOf(SumIn(log, scope, cur - Min(n * bucket, window) + 1, cur))
  {
    hide SumIn, Buckets, CellTotals, TotalsOf, BucketSum, Count.Plus;
    if n == 0 {
      assert Min(0 * bucket, window) == 0;
      NothingBetween(log, scope, cur, 0);
      NoCells();
    } else {
      CellsUpTo(log, scope, cur, window, bucket, sparse, n - 1);
      var before := CellsOf(log, scope, cur, window, bucket, sparse, n - 1);
      var c := BucketSum(log, scope, cur, window, bucket, n - 1);
      BucketsAddUp(log, scope, cur, window, bucket, n - 1);
      assert (n - 1 + 1) * bucket == n * bucket;
      CellAdds(before, n - 1, c, SumIn(log, scope, cur - Min((n - 1) * bucket, window) + 1, cur), sparse);
    }
  }

  lemma NoCells()
    ensures CellTotals([]) == TotalsOf(NONE)
  {
  }

  /** One more cell, or a sparse heatmap's silence about it, accounts for its bucket. */
  lemma CellAdds(cells: seq<Cell>, n: nat, c: Count, before: Count, sparse: bool)
    requires CellTotals(cells) == TotalsOf(before)
    ensures CellTotals(cells + (if sparse && CellOf(n, c).Empty() then [] else [CellOf(n, c)]))
              == TotalsOf(c.Plus(before))
  {
    assert cells + [] == cells;
    assert (cells + [CellOf(n, c)])[..|cells|] == cells;
  }

  lemma BucketsAddUp(log: seq<Row>, scope: Scope, cur: nat, window: nat, bucket: nat, n: nat)
    requires 0 < bucket <= window && n < Buckets(window, bucket)
    ensures SumIn(log, scope, cur - Min((n + 1) * bucket, window) + 1, cur) ==
            BucketSum(log, scope, cur, window, bucket, n)
              .Plus(SumIn(log, scope, cur - Min(n * bucket, window) + 1, cur))
  {
    hide SumIn, Count.Plus;
    BucketStarts(window, bucket, n);
    var done := n * bucket;
    assert (n + 1) * bucket == done + bucket;
    SumInSplit(log, scope, cur - Min((n + 1) * bucket, window) + 1, cur - done + 1, cur);
  }

  lemma {:induction false} BucketStarts(window: nat, bucket: nat, n: nat)
    requires 0 < bucket && n < Buckets(window, bucket)
    ensures n * bucket < window
  {
    assert (n + 1) * bucket <= Buckets(window, bucket) * bucket <= window + bucket - 1;
  }

  /** The same sums give the same cells. */
  lemma {:induction false} SameCells(a: seq<Row>, b: seq<Row>, scopeA: Scope, scopeB: Scope, cur: nat, window: nat,
                                     bucket: nat, sparse: bool, n: nat)
    requires SameSums(a, b, scopeA, scopeB, cur, window) && 0 < bucket <= window && n <= Buckets(window, bucket)
    ensures CellsOf(a, scopeA, cur, window, bucket, sparse, n) == CellsOf(b, scopeB, cur, window, bucket, sparse, n)
  {
    hide SumIn;
    if n > 0 { SameCells(a, b, scopeA, scopeB, cur, window, bucket, sparse, n - 1); }
  }

  // ---------------------------------------------------------------- what a dropped ring loses

  /** Every row counts a request or a retry, as all rows the program counts do. */
  predicate EachCounts(log: seq<Row>) {
    forall i :: 0 <= i < |log| ==> log[i].count.reqs + log[i].count.retries > 0
  }

  /** None of the first `start` rows is of this account and these minutes. */
  predicate NothingLost(log: seq<Row>, start: nat, account: string, lo: int, hi: int)
    requires start <= |log|
  {
    forall i :: 0 <= i < start ==> !Concerns(log[i], Only(account), lo, hi)
  }

  /**
   An account whose ring counts from some row on shows the whole window exactly if none of its earlier
   rows lies in it.
   */
  lemma CellsAreWholeExactlyWhen(log: seq<Row>, start: nat, account: string, cur: nat, window: nat, bucket: nat,
                                 sparse: bool)
    requires start <= |log| && EachCounts(log) && 0 < bucket <= window
    ensures CellsOf(log[start..], Only(account), cur, window, bucket, sparse, Buckets(window, bucket))
              == CellsOf(log, Only(account), cur, window, bucket, sparse, Buckets(window, bucket))
            <==> NothingLost(log, start, account, cur - window + 1, cur)
  {
    hide SumIn, Count.Plus, CellsOf, Buckets;
    var before, own, scope := log[..start], log[start..], Only(account);
    var lo := cur - window + 1;
    assert before + own == log;
    if NothingLost(log, start, account, lo, cur) {
      NothingLostSameSums(log, start, account, cur, window);
      SameCells(own, log, scope, scope, cur, window, bucket, sparse, Buckets(window, bucket));
    } else {
      hide NothingLost;
      SomethingLost(log, start, account, lo, cur);
      HeatmapConserves(own, scope, cur, window, bucket, sparse);
      HeatmapConserves(log, scope, cur, window, bucket, sparse);
    }
  }

  lemma NothingLostSameSums(log: seq<Row>, start: nat, account: string, cur: nat, window: nat)
    requires start <= |log| && NothingLost(log, start, account, cur - window + 1, cur)
    ensures SameSums(log[start..], log, Only(account), Only(account), cur, window)
  {
    hide SumIn, Count.Plus;
    PlusNone();
    var before, own := log[..start], log[start..];
    assert before + own == log;
    forall lo, hi | cur - window < lo && hi <= cur
      ensures SumIn(own, Only(account), lo, hi) == SumIn(log, Only(account), lo, hi)
    {
      SumInConcat(before, own, Only(account), lo, hi);
      SumOfNothing(before, Only(account), lo, hi);
    }
  }

  lemma SomethingLost(log: seq<Row>, start: nat, account: string, lo: int, hi: int)
    requires start <= |log| && EachCounts(log) && !NothingLost(log, start, account, lo, hi)
    ensures TotalsOf(SumIn(log[start..], Only(account), lo, hi)) != TotalsOf(SumIn(log, Only(account), lo, hi))
  {
    hide SumIn;
    var before, own := log[..start], log[start..];
    assert before + own == log;
    SumInConcat(before, own, Only(account), lo, hi);
    var i :| 0 <= i < start && Concerns(log[i], Only(account), lo, hi);
    assert before[i] == log[i];
    SumCounts(before, i, Only(account), lo, hi);
  }

  lemma {:induction false} SumCounts(log: seq<Row>, i: nat, scope: Scope, lo: int, hi: int)
    requires i < |log| && EachCounts(log) && Concerns(log[i], scope, lo, hi)
    ensures var c := SumIn(log, scope, lo, hi); c.reqs + c.retries > 0
  {
    if i < |log| - 1 { SumCounts(log[..|log| - 1], i, scope, lo, hi); }
  }

  // ---------------------------------------------------------------- the store

  /** The accounts that have rows in the log; a request rejected before an account was tried has none. */
  function AccountsOf(log: seq<Row>): set<string> {
    set i | 0 <= i < |log| && log[i].account != "" :: log[i].account
  }

  lemma AccountsOfSnoc(log: seq<Row>, row: Row)
    ensures AccountsOf(log + [row]) == AccountsOf(log) + (if row.account == "" then {} else {row.account})
  {
    assert forall i :: 0 <= i < |log| ==> (log + [row])[i] == log[i];
    forall a | a in AccountsOf(log) + (if row.account == "" then {} else {row.account})
      ensures a in AccountsOf(log + [row])
    {
      if a in AccountsOf(log) {
        var i :| 0 <= i < |log| && log[i].account == a && a != "";
        assert (log + [row])[i].account == a;
      } else {
        assert (log + [row])[|log|].account == a;
      }
    }
  }

  /** Adds to everyone's ring and, if the row has an account, to that account's. */
  method AddToBoth(globalRing: array<Bucket>, rings: map<string, array<Bucket>>, ghost t: Tally, row: Row,
                   ghost now: nat)
    requires Separate(globalRing, rings) && Holds(globalRing, rings, t.global, t.views)
    requires row.account != "" ==> row.account in rings
    modifies globalRing, rings.Values
    ensures |t.global| == SLOTS && (row.account != "" ==> row.account in t.views && |t.views[row.account]| == SLOTS)
    ensures var t' := Counted(t, row, now); Holds(globalRing, rings, t'.global, t'.views)
  {
    hide Touched;
    AddTo(globalRing, row.minute, row.count);
    if row.account != "" {
      AddTo(rings[row.account], row.minute, row.count);
    }
  }

  lemma CountedKept(globalRing: array<Bucket>, rings: map<string, array<Bucket>>, touched: map<string, int>, t: Tally,
                    row: Row, now: nat)
    requires Kept(globalRing, rings, touched, t, AccountsOf(t.log + [row]))
    requires t.cur <= now && now - SLOTS < row.minute <= now && (row.account != "" ==> row.account in rings)
    ensures |t.global| == SLOTS && (row.account != "" ==> row.account in t.views && |t.views[row.account]| == SLOTS)
    ensures Kept(globalRing, rings, touched, Counted(t, row, now), AccountsOf(t.log + [row]))
  {
    hide RefinesAll, Separate, Bounded, AccountsOf, Touched, CoversUnlessDropped;
    TallySizes(t);
    RowRefinesAll(t, row, now);
    CoversAfterRow(t.log, t.since, t.dropped, row);
  }

  lemma TallySizes(t: Tally)
    requires RefinesAll(t)
    ensures |t.global| == SLOTS
    ensures forall a :: a in t.views ==> |t.views[a]| == SLOTS && a in t.since && t.since[a] <= |t.log|
  {
  }

  lemma CoversAfterRow(log: seq<Row>, since: map<string, nat>, dropped: set<string>, row: Row)
    requires CoversUnlessDropped(log, since, dropped)
    requires row.account != "" ==> row.account in since && since[row.account] <= |log|
    ensures CoversUnlessDropped(log + [row], since, dropped)
  {
  }

  class ObserveStore {
    const globalRing: array<Bucket>
    var accountRings: map<string, array<Bucket>>
    var accountTouched: map<string, int>
    ghost var tally: Tally

    ghost function Arrays(): set<array<Bucket>>
      reads this
    {
      {globalRing} + accountRings.Values
    }

    ghost predicate Valid()
      reads this, Arrays()
    {
      Right(globalRing, accountRings, accountTouched, tally, AccountsOf(tally.log))
    }

    constructor ()
      ensures Valid() && tally.log == [] && tally.since == map[] && tally.dropped == {} && tally.cur == 0
      ensures accountTouched == map[] && fresh(Arrays())
    {
      var ring := NewRing();
      globalRing := ring;
      accountRings, accountTouched := map[], map[];
      tally := Tally([], map[], {}, 0, EmptyRing(), map[]);
      new;
      EmptyRefines([], Everyone, 0);
    }

    /** Counts a row of a minute of the last day; `ghost now` is the current minute. */
    method AddRow(row: Row, time: int, ghost now: nat)
      requires Valid() && tally.cur <= now && now - SLOTS < row.minute <= now
      modifies this, Arrays()
      ensures Valid() && tally.log == old(tally.log) + [row] && tally.cur == now
      ensures row.account == "" ==>
                && accountTouched == old(accountTouched) && tally.since == old(tally.since)
                && tally.dropped == old(tally.dropped)
      ensures row.account != "" ==>
                RingGiven(old(accountTouched), accountTouched, old(tally), tally, row.account, time)
      ensures fresh(Arrays() - old(Arrays()))
    {
      hide Holds, Kept, Separate, AccountsOf, Touched;
      AccountsOfSnoc(tally.log, row);
      ghost var seen := AccountsOf(tally.log + [row]);
      assert row.account == "" ==> seen == AccountsOf(tally.log);
      if row.account != "" {
        accountRings, accountTouched, tally :=
          GetOrCreateAccountRing(globalRing, accountRings, accountTouched, tally, AccountsOf(tally.log), row.account,
                                 time);
      }
      KeptSeparate(globalRing, accountRings, accountTouched, tally, seen);
      CountedKept(globalRing, accountRings, accountTouched, tally, row, now);
      AddToBoth(globalRing, accountRings, tally, row, now);
      tally := Counted(tally, row, now);
    }

    /** A final client request: RecordTracedRequestWithCache. */
    method CountRequest(now: nat, account: string, success: bool, inTokens: nat, outTokens: nat, cacheRead: nat,
                        cacheWrite: nat, credits: real)
      requires Valid() && tally.cur <= now / 60
      modifies this, Arrays()
      ensures Valid() && tally.cur == now / 60
      ensures var count := OfRequest(success, inTokens, outTokens, cacheRead, cacheWrite, credits);
              && tally.log == old(tally.log) + [Row(now / 60, account, count)]
              && count == Count(1, if success then 1 else 0, if success then 0 else 1, 0, inTokens, outTokens,
                                cacheRead, cacheWrite, credits)
      ensures account != "" ==> RingGiven(old(accountTouched), accountTouched, old(tally), tally, account, now)
      ensures fresh(Arrays() - old(Arrays()))
    {
      var count := OfRequest(success, inTokens, outTokens, cacheRead, cacheWrite, credits);
      AddRow(Row(now / 60, account, count), now, now / 60);
    }

    /** A failed upstream attempt counts as a retry. */
    method RecordFailure(now: nat, account: string)
      requires Valid() && tally.cur <= now / 60
      modifies this, Arrays()
      ensures Valid() && tally.cur == now / 60
      ensures tally.log == old(tally.log) + [Row(now / 60, account, ONE_RETRY)]
      ensures account != "" ==> RingGiven(old(accountTouched), accountTouched, old(tally), tally, account, now)
      ensures fresh(Arrays() - old(Arrays()))
    {
      AddRow(Row(now / 60, account, ONE_RETRY), now, now / 60);
    }

    method Overview(now: nat) returns (snapshot: Snapshot)
      requires Valid() && tally.cur <= now / 60
      ensures snapshot == SnapshotOf(tally.log, now / 60)
    {
      hide SnapshotOf;
      RightLater(globalRing, accountRings, accountTouched, tally, AccountsOf(tally.log), now / 60);
      snapshot := OverviewOf(globalRing, tally.log, now / 60);
    }

    /**
     Everyone's cells and each account's.  An account's are about the rows since its present ring was
     begun, which for an account whose ring was never dropped are all of its rows.
     */
    method HeatmapWith(now: nat, windowMin: int, bucketMin: int, globalOnly: bool, sparse: bool)
        returns (window: nat, bucket: nat, everyone: seq<Cell>, accounts: map<string, seq<Cell>>)
      requires Valid() && tally.cur <= now / 60
      ensures window == if windowMin <= 0 then 60 else Min(windowMin, SLOTS)
      ensures bucket == if bucketMin <= 0 then 1 else Min(bucketMin, window)
      ensures everyone == CellsOf(tally.log, Everyone, now / 60, window, bucket, sparse, Buckets(window, bucket))
      ensures forall a :: a in accounts <==> !globalOnly && a in accountRings
      ensures forall a :: a in accounts ==>
                && a in tally.since && tally.since[a] <= |tally.log|
                && accounts[a] == CellsOf(tally.log[tally.since[a]..], Only(a), now / 60, window, bucket, sparse,
                                          Buckets(window, bucket))
      ensures forall a :: a in accounts && a !in tally.dropped ==>
                accounts[a] == CellsOf(tally.log, Only(a), now / 60, window, bucket, sparse, Buckets(window, bucket))
    {
      window := if windowMin <= 0 then 60 else if windowMin > SLOTS then SLOTS else windowMin;
      bucket := if bucketMin <= 0 then 1 else if bucketMin > window then window else bucketMin;
      assert Right(globalRing, accountRings, accountTouched, tally, AccountsOf(tally.log));
      assert window == (if windowMin <= 0 then 60 else Min(windowMin, SLOTS))
          && bucket == if bucketMin <= 0 then 1 else Min(bucketMin, window);
      hide *;
      RightLater(globalRing, accountRings, accountTouched, tally, AccountsOf(tally.log), now / 60);
      everyone := Collect(globalRing, tally.log, Everyone, now / 60, window, bucket, sparse);
      accounts := map[];
      if globalOnly { return; }
      accounts := CollectAccounts(globalRing, accountRings, accountTouched, tally, AccountsOf(tally.log), now / 60,
                                  window, bucket, sparse);
    }

    method Reset()
      requires Valid()
      modifies this, globalRing
      ensures Valid() && tally.log == [] && tally.dropped == {} && tally.cur == 0 && accountRings == map[]
    {
      assert globalRing.Length == SLOTS;
      ClearRing(globalRing);
      accountRings, accountTouched := map[], map[];
      tally := Tally([], map[], {}, 0, EmptyRing(), map[]);
      EmptyRefines([], Everyone, 0);
    }

    /** Rebuilds the rings from per-minute sums in any order, leaving out what is not of the last day. */
    method LoadWindow(minutes: seq<Row>, now: nat)
      requires Valid()
      modifies this, Arrays()
      ensures Valid() && tally.cur == now / 60 && tally.log == OfTheDay(minutes, now / 60)
      ensures fresh(Arrays() - old(Arrays()))
    {
      hide Right, AccountsOf, OfTheDay, RingGiven;
      var curMin := now / 60;
      Reset();
      Wait(curMin);
      NothingOfTheDay(curMin);
      var i := 0;
      while i < |minutes|
        invariant 0 <= i <= |minutes|
        invariant Valid() && tally.cur == curMin && tally.log == OfTheDay(minutes[..i], curMin)
        invariant fresh(Arrays() - old(Arrays()))
      {
        var row := minutes[i];
        OfTheDaySnoc(minutes, i, curMin);
        if !(row.minute <= curMin - SLOTS || row.minute > curMin) {
          AddRow(row, now, curMin);
        }
        i := i + 1;
      }
      assert minutes[..|minutes|] == minutes;
    }

    lemma TouchedHaveRings(account: string)
      requires Valid() && account in accountTouched
      ensures account in accountRings
    {
      hide RefinesAll, Separate, Holds, CoversUnlessDropped, Bounded;
    }

    ghost method Wait(now: nat)
      requires Valid() && tally.cur <= now
      modifies this`tally
      ensures Valid() && tally == old(tally).(cur := now)
    {
      RightLater(globalRing, accountRings, accountTouched, tally, AccountsOf(tally.log), now);
      tally := Tally(tally.log, tally.since, tally.dropped, now, tally.global, tally.views);
    }
  }

  method ClearRing(ring: array<Bucket>)
    requires ring.Length == SLOTS
    modifies ring
    ensures ring[..] == EmptyRing()
  {
    for i := 0 to SLOTS
      invariant forall k :: 0 <= k < i ==> ring[k] == Bucket(0, NONE)
    {
      ring[i] := Bucket(0, NONE);
    }
  }

  /** Waiting changes nothing that is held. */
  lemma RightLater(globalRing: array<Bucket>, rings: map<string, array<Bucket>>, touched: map<string, int>, t: Tally,
                   seen: set<string>, now: nat)
    requires Right(globalRing, rings, touched, t, seen) && t.cur <= now
    ensures Right(globalRing, rings, touched, Tally(t.log, t.since, t.dropped, now, t.global, t.views), seen)
    ensures Refines(globalRing[..], t.log, Everyone, now)
  {
    hide Refines, Bounded, Separate, CoversUnlessDropped;
    RefinesLater(t.global, t.log, Everyone, t.cur, now);
    forall a | a in t.views ensures RefinesFrom(t.views[a], t.log, t.since[a], a, now) {
      RefinesLater(t.views[a], t.log[t.since[a]..], Only(a), t.cur, now);
    }
  }

  /** An account that never lost its ring has all its rows in it. */
  lemma CoveredSums(log: seq<Row>, since: map<string, nat>, dropped: set<string>, a: string, cur: nat,
                     window: nat)
    requires CoversUnlessDropped(log, since, dropped) && a in since && since[a] <= |log| && a !in dropped && a != ""
    ensures SameSums(log[since[a]..], log, Only(a), Only(a), cur, window)
  {
    hide SumIn, Count.Plus;
    PlusNone();
    var before, after := log[..since[a]], log[since[a]..];
    assert before + after == log;
    forall lo, hi ensures SumIn(after, Only(a), lo, hi) == SumIn(log, Only(a), lo, hi) {
      SumInConcat(before, after, Only(a), lo, hi);
      SumOfNothing(before, Only(a), lo, hi);
    }
  }

  method CollectAccounts(globalRing: array<Bucket>, rings: map<string, array<Bucket>>, touched: map<string, int>,
                         ghost t: Tally, ghost seen: set<string>,
                         cur: nat, window: nat, bucket: nat, sparse: bool)
      returns (accounts: map<string, seq<Cell>>)
    requires Right(globalRing, rings, touched, t, seen) && t.cur <= cur && 0 < bucket <= window <= SLOTS
    ensures forall a :: a in accounts <==> a in rings
    ensures forall a :: a in accounts ==>
              && a in t.since && t.since[a] <= |t.log|
              && accounts[a]
                  == CellsOf(t.log[t.since[a]..], Only(a), cur, window, bucket, sparse, Buckets(window, bucket))
    ensures forall a :: a in accounts && a !in t.dropped ==>
              accounts[a] == CellsOf(t.log, Only(a), cur, window, bucket, sparse, Buckets(window, bucket))
  {
    hide Right, CellsOf, Buckets, SameSums;
    accounts := map[];
    var rest := rings.Keys;
    while rest != {}
      invariant rest <= rings.Keys
      invariant forall a :: a in accounts <==> a in rings && a !in rest
      invariant forall a :: a in accounts ==>
                  && a in t.since && t.since[a] <= |t.log|
                  && accounts[a]
                      == CellsOf(t.log[t.since[a]..], Only(a), cur, window, bucket, sparse, Buckets(window, bucket))
      invariant forall a :: a in accounts && a !in t.dropped ==>
                  accounts[a] == CellsOf(t.log, Only(a), cur, window, bucket, sparse, Buckets(window, bucket))
      decreases rest
    {
      var a :| a in rest;
      RightAccount(globalRing, rings, touched, t, seen, a, cur, window);
      ghost var own := t.log[t.since[a]..];
      var cells := Collect(rings[a], own, Only(a), cur, window, bucket, sparse);
      if a !in t.dropped {
        SameCells(own, t.log, Only(a), Only(a), cur, window, bucket, sparse, Buckets(window, bucket));
      }
      accounts, rest := accounts[a := cells], rest - {a};
    }
  }

  lemma RightAccount(globalRing: array<Bucket>, rings: map<string, array<Bucket>>, touched: map<string, int>, t: Tally,
                     seen: set<string>, a: string, cur: nat, window: nat)
    requires Right(globalRing, rings, touched, t, seen) && t.cur <= cur && a in rings
    ensures a in t.since && t.since[a] <= |t.log| && Refines(rings[a][..], t.log[t.since[a]..], Only(a), cur)
    ensures a !in t.dropped ==> SameSums(t.log[t.since[a]..], t.log, Only(a), Only(a), cur, window)
  {
    hide Bounded, Separate, CoversUnlessDropped, SameSums, Refines;
    var own := t.log[t.since[a]..];
    RefinesLater(t.views[a], own, Only(a), t.cur, cur);
    if a !in t.dropped { CoveredSums(t.log, t.since, t.dropped, a, cur, window); }
  }

  // ---------------------------------------------------------------- rebuilding

  /** The rows of the 1440 minutes up to the current one. */
  function OfTheDay(rows: seq<Row>, cur: nat): seq<Row> {
    if rows == [] then []
    else
      var last := rows[|rows| - 1];
      OfTheDay(rows[..|rows| - 1], cur) + (if cur - SLOTS < last.minute <= cur then [last] else [])
  }

  lemma NothingOfTheDay(cur: nat)
    ensures OfTheDay([], cur) == []
  {
  }

  lemma OfTheDaySnoc(rows: seq<Row>, i: nat, cur: nat)
    requires i < |rows|
    ensures OfTheDay(rows[..i + 1], cur) == OfTheDay(rows[..i], cur) +
              (if cur - SLOTS < rows[i].minute <= cur then [rows[i]] else [])
  {
    assert rows[..i + 1][..i] == rows[..i];
  }

  lemma {:induction false} OfTheDaySums(rows: seq<Row>, scope: Scope, cur: nat, lo: int, hi: int)
    requires cur - SLOTS < lo && hi <= cur
    ensures SumIn(OfTheDay(rows, cur), scope, lo, hi) == SumIn(rows, scope, lo, hi)
  {
    hide Count.Plus;
    PlusNone();
    if rows != [] {
      var init, last := rows[..|rows| - 1], rows[|rows| - 1];
      OfTheDaySums(init, scope, cur, lo, hi);
      SumInSnoc(OfTheDay(init, cur), last, scope, lo, hi);
      assert OfTheDay(init, cur) + [] == OfTheDay(init, cur);
    }
  }

  /** The log's requests, or its retries, from a minute on: what one of the two queries scans. */
  function Scanned(log: seq<Row>, retries: bool, sinceMin: int): seq<Row> {
    if log == [] then []
    else
      var last := log[|log| - 1];
      Scanned(log[..|log| - 1], retries, sinceMin) +
          (if (last.count.retries > 0) == retries && last.minute >= sinceMin then [last] else [])
  }

  /** The sum of the rows of one minute and one account. */
  function KeySum(rows: seq<Row>, minute: nat, account: string): Count {
    SumIn(rows, Only(account), minute, minute)
  }

  predicate HasKey(groups: seq<Row>, minute: nat, account: string) {
    exists j :: 0 <= j < |groups| && groups[j].minute == minute && groups[j].account == account
  }

  /** GROUP BY minute and account: each key of the rows once, in any order, with the sum of its rows. */
  ghost predicate IsGroupingOf(groups: seq<Row>, rows: seq<Row>) {
    && (forall i, j :: 0 <= i < j < |groups| ==>
        groups[i].minute != groups[j].minute || groups[i].account != groups[j].account)
    && (forall i :: 0 <= i < |groups| ==> groups[i].count == KeySum(rows, groups[i].minute, groups[i].account))
    && (forall r :: r in rows ==> HasKey(groups, r.minute, r.account))
  }

  function Without(rows: seq<Row>, minute: nat, account: string): seq<Row> {
    if rows == [] then []
    else
      var last := rows[|rows| - 1];
      Without(rows[..|rows| - 1], minute, account) +
          (if last.minute == minute && last.account == account then [] else [last])
  }

  /** A key's rows and the others add up to all. */
  lemma {:induction false} WithoutSums(rows: seq<Row>, minute: nat, account: string, scope: Scope, lo: int, hi: int)
    ensures SumIn(rows, scope, lo, hi)
            == SumIn(Without(rows, minute, account), scope, lo, hi).Plus(
                 If(Concerns(Row(minute, account, NONE), scope, lo, hi), KeySum(rows, minute, account)))
  {
    hide SumIn, Without, KeySum, Count.Plus, If;
    if rows == [] {
      NothingWithout(minute, account, scope, lo, hi);
    } else {
      WithoutSums(rows[..|rows| - 1], minute, account, scope, lo, hi);
      WithoutLast(rows, minute, account, scope, lo, hi);
    }
  }

  function If(c: bool, count: Count): Count {
    if c then count else NONE
  }

  lemma NothingWithout(minute: nat, account: string, scope: Scope, lo: int, hi: int)
    ensures SumIn([], scope, lo, hi) == SumIn(Without([], minute, account), scope, lo, hi) == NONE
    ensures KeySum([], minute, account) == NONE && If(Concerns(Row(minute, account, NONE), scope, lo, hi), NONE) == NONE
    ensures NONE.Plus(NONE) == NONE
  {
    hide Count.Plus;
    PlusNone();
  }

  /** The last row is added to the rest or to the key's rows, on both sides alike. */
  lemma WithoutLast(rows: seq<Row>, minute: nat, account: string, scope: Scope, lo: int, hi: int)
    requires rows != []
    requires var init := rows[..|rows| - 1];
             SumIn(init, scope, lo, hi)
             == SumIn(Without(init, minute, account), scope, lo, hi).Plus(
                  If(Concerns(Row(minute, account, NONE), scope, lo, hi), KeySum(init, minute, account)))
    ensures SumIn(rows, scope, lo, hi)
            == SumIn(Without(rows, minute, account), scope, lo, hi).Plus(
                 If(Concerns(Row(minute, account, NONE), scope, lo, hi), KeySum(rows, minute, account)))
  {
    hide SumIn, Without, Count.Plus;
    var init, last := rows[..|rows| - 1], rows[|rows| - 1];
    var concerned := Concerns(Row(minute, account, NONE), scope, lo, hi);
    SumInLast(rows, scope, lo, hi);
    WithoutOfLast(rows, minute, account, scope, lo, hi);
    SumInLast(rows, Only(account), minute, minute);
    var others := SumIn(Without(init, minute, account), scope, lo, hi);
    var key := If(concerned, KeySum(init, minute, account));
    var c := If(Concerns(last, scope, lo, hi), last.count);
    PlusNone();
    PlusAssociative(others, key, c);
    PlusAssociative(others, c, key);
    PlusCommutes(key, c);
  }

  lemma SumInLast(rows: seq<Row>, scope: Scope, lo: int, hi: int)
    requires rows != []
    ensures var last := rows[|rows| - 1];
            SumIn(rows, scope, lo, hi)
            == SumIn(rows[..|rows| - 1], scope, lo, hi).Plus(If(Concerns(last, scope, lo, hi), last.count))
  {
    hide Count.Plus;
  }

  lemma WithoutOfLast(rows: seq<Row>, minute: nat, account: string, scope: Scope, lo: int, hi: int)
    requires rows != []
    ensures var init, last := rows[..|rows| - 1], rows[|rows| - 1];
            var isKey := last.minute == minute && last.account == account;
            SumIn(Without(rows, minute, account), scope, lo, hi)
            == SumIn(Without(init, minute, account), scope, lo, hi).Plus(
                 If(!isKey && Concerns(last, scope, lo, hi), last.count))
  {
    hide SumIn, Count.Plus;
    PlusNone();
    var init, last := rows[..|rows| - 1], rows[|rows| - 1];
    SumInSnoc(Without(init, minute, account), last, scope, lo, hi);
    assert Without(init, minute, account) + [] == Without(init, minute, account);
  }

  lemma {:induction false} WithoutRows(rows: seq<Row>, minute: nat, account: string)
    ensures forall r :: r in Without(rows, minute, account) <==>
              r in rows && !(r.minute == minute && r.account == account)
  {
    if rows != [] { WithoutRows(rows[..|rows| - 1], minute, account); }
  }

  lemma WithoutKeySum(rows: seq<Row>, minute: nat, account: string, otherMinute: nat, other: string)
    requires minute != otherMinute || account != other
    ensures KeySum(Without(rows, minute, account), otherMinute, other) == KeySum(rows, otherMinute, other)
  {
    hide SumIn, Count.Plus, Without;
    PlusNone();
    WithoutSums(rows, minute, account, Only(other), otherMinute, otherMinute);
  }

  lemma GroupingWithout(groups: seq<Row>, rows: seq<Row>)
    requires groups != [] && IsGroupingOf(groups, rows)
    ensures var g := groups[|groups| - 1]; IsGroupingOf(groups[..|groups| - 1], Without(rows, g.minute, g.account))
  {
    hide Without, KeySum;
    var init, g := groups[..|groups| - 1], groups[|groups| - 1];
    var rest := Without(rows, g.minute, g.account);
    WithoutRows(rows, g.minute, g.account);
    forall i | 0 <= i < |init| ensures init[i].count == KeySum(rest, init[i].minute, init[i].account) {
      WithoutKeySum(rows, g.minute, g.account, init[i].minute, init[i].account);
    }
    forall r | r in rest ensures HasKey(init, r.minute, r.account) {
      assert HasKey(groups, r.minute, r.account);
      var j :| 0 <= j < |groups| && groups[j].minute == r.minute && groups[j].account == r.account;
      assert init[j] == groups[j];
    }
  }

  lemma SomeGroups(groups: seq<Row>, rows: seq<Row>)
    requires IsGroupingOf(groups, rows) && rows != []
    ensures groups != []
  {
    assert rows[0] in rows;
    assert HasKey(groups, rows[0].minute, rows[0].account);
  }

  /** Sums over the groups are sums over the rows. */
  lemma {:induction false} GroupingSums(groups: seq<Row>, rows: seq<Row>, scope: Scope, lo: int, hi: int)
    requires IsGroupingOf(groups, rows)
    ensures SumIn(groups, scope, lo, hi) == SumIn(rows, scope, lo, hi)
    decreases |groups|
  {
    hide Count.Plus, Without, KeySum;
    if groups == [] {
      if rows != [] { SomeGroups(groups, rows); }
    } else {
      var g := groups[|groups| - 1];
      GroupingWithout(groups, rows);
      GroupingSums(groups[..|groups| - 1], Without(rows, g.minute, g.account), scope, lo, hi);
      WithoutSums(rows, g.minute, g.account, scope, lo, hi);
    }
  }

  lemma {:induction false} ScannedSums(log: seq<Row>, sinceMin: int, scope: Scope, lo: int, hi: int)
    requires sinceMin <= lo
    ensures SumIn(log, scope, lo, hi)
              == SumIn(Scanned(log, false, sinceMin), scope, lo, hi)
                   .Plus(SumIn(Scanned(log, true, sinceMin), scope, lo, hi))
  {
    hide Count.Plus, SumIn, Scanned;
    PlusNone();
    if log == [] {
      NothingScanned(sinceMin);
      SumOfNothing([], scope, lo, hi);
    } else {
      var init, last := log[..|log| - 1], log[|log| - 1];
      ScannedSums(init, sinceMin, scope, lo, hi);
      ScannedLast(log, sinceMin);
      assert init + [last] == log;
      SumInSnoc(init, last, scope, lo, hi);
      var requests, retries, c := Scanned(init, false, sinceMin), Scanned(init, true, sinceMin), last.count;
      SumInSnoc(requests, last, scope, lo, hi);
      SumInSnoc(retries, last, scope, lo, hi);
      var a, b := SumIn(requests, scope, lo, hi), SumIn(retries, scope, lo, hi);
      PlusAssociative(a, b, c);
      PlusAssociative(a, c, b);
      PlusCommutes(b, c);
    }
  }

  lemma NothingScanned(sinceMin: int)
    ensures Scanned([], false, sinceMin) == Scanned([], true, sinceMin) == []
  {
  }

  lemma ScannedLast(log: seq<Row>, sinceMin: int)
    requires log != []
    ensures var init, last := log[..|log| - 1], log[|log| - 1];
            && Scanned(log, last.count.retries > 0, sinceMin)
                == (if last.minute >= sinceMin then Scanned(init, last.count.retries > 0, sinceMin) + [last]
                    else Scanned(init, last.count.retries > 0, sinceMin))
            && Scanned(log, last.count.retries == 0, sinceMin) == Scanned(init, last.count.retries == 0, sinceMin)
  {
    var init, last := log[..|log| - 1], log[|log| - 1];
    var queried := last.count.retries > 0;
    assert Scanned(init, queried, sinceMin) + [] == Scanned(init, queried, sinceMin);
    assert Scanned(init, !queried, sinceMin) + [] == Scanned(init, !queried, sinceMin);
  }

  /**
   Rebuilding is faithful: whatever order the two queries give their groups in, what LoadWindow
   counts reads like the log itself, for everyone and for each account, over the whole day.
   */
  lemma RebuiltReadsLikeTheLog(log: seq<Row>, requests: seq<Row>, retries: seq<Row>, scope: Scope, cur: nat)
    requires IsGroupingOf(requests, Scanned(log, false, cur - SLOTS + 1))
    requires IsGroupingOf(retries, Scanned(log, true, cur - SLOTS + 1))
    ensures SameSums(OfTheDay(requests + retries, cur), log, scope, scope, cur, SLOTS)
  {
    hide SumIn, Count.Plus, OfTheDay, Scanned;
    var sinceMin := cur - SLOTS + 1;
    forall lo, hi | cur - SLOTS < lo && hi <= cur
      ensures SumIn(OfTheDay(requests + retries, cur), scope, lo, hi) == SumIn(log, scope, lo, hi)
    {
      OfTheDaySums(requests + retries, scope, cur, lo, hi);
      SumInConcat(requests, retries, scope, lo, hi);
      GroupingSums(requests, Scanned(log, false, sinceMin), scope, lo, hi);
      GroupingSums(retries, Scanned(log, true, sinceMin), scope, lo, hi);
      ScannedSums(log, sinceMin, scope, lo, hi);
    }
  }

  /** What a store that counted the log live shows, a store rebuilt from the log shows too. */
  lemma {:induction false} RebuiltShowsTheSame(log: seq<Row>, requests: seq<Row>, retries: seq<Row>, scope: Scope,
                                               cur: nat, window: nat, bucket: nat, sparse: bool)
    requires IsGroupingOf(requests, Scanned(log, false, cur - SLOTS + 1))
    requires IsGroupingOf(retries, Scanned(log, true, cur - SLOTS + 1))
    requires 0 < bucket <= window <= SLOTS
    ensures var rebuilt := OfTheDay(requests + retries, cur);
            && SnapshotOf(rebuilt, cur) == SnapshotOf(log, cur)
            && CellsOf(rebuilt, scope, cur, window, bucket, sparse, Buckets(window, bucket))
               == CellsOf(log, scope, cur, window, bucket, sparse, Buckets(window, bucket))
  {
    hide SnapshotOf, CellsOf, IsGroupingOf, OfTheDay, Scanned, SameSums, Buckets;
    var rebuilt := OfTheDay(requests + retries, cur);
    RebuiltReadsLikeTheLog(log, requests, retries, Everyone, cur);
    RebuiltReadsLikeTheLog(log, requests, retries, scope, cur);
    SameSnapshot(rebuilt, log, cur);
    ShorterWindow(rebuilt, log, scope, cur, window);
    SameCells(rebuilt, log, scope, scope, cur, window, bucket, sparse, Buckets(window, bucket));
  }

  /**
   Two stores, one that counted live and one rebuilt from its log: the overview and everyone's heatmap
   agree.  An account's heatmaps, which are about the rows since its present ring was begun, agree if
   neither store lost rows of the window, and differ if just one of them did.
   */
  lemma RebuiltStoreShowsTheSame(live: ObserveStore, rebuilt: ObserveStore, requests: seq<Row>, retries: seq<Row>,
                                 account: string, cur: nat, window: nat, bucket: nat, sparse: bool)
    requires live.Valid() && rebuilt.Valid() && rebuilt.tally.log == OfTheDay(requests + retries, cur)
    requires IsGroupingOf(requests, Scanned(live.tally.log, false, cur - SLOTS + 1))
    requires IsGroupingOf(retries, Scanned(live.tally.log, true, cur - SLOTS + 1))
    requires EachCounts(live.tally.log) && EachCounts(rebuilt.tally.log)
    requires account in live.accountRings && account in rebuilt.accountRings
    requires 0 < bucket <= window <= SLOTS
    ensures HasRing(live.tally, account) && HasRing(rebuilt.tally, account)
    ensures SnapshotOf(rebuilt.tally.log, cur) == SnapshotOf(live.tally.log, cur)
    ensures CellsOf(rebuilt.tally.log, Everyone, cur, window, bucket, sparse, Buckets(window, bucket))
              == CellsOf(live.tally.log, Everyone, cur, window, bucket, sparse, Buckets(window, bucket))
    ensures var same := OwnCells(rebuilt.tally, account, cur, window, bucket, sparse)
                        == OwnCells(live.tally, account, cur, window, bucket, sparse);
            var wholeLive, wholeRebuilt := LostNothing(live.tally, account, cur, window),
                LostNothing(rebuilt.tally, account, cur, window);
            && (wholeLive && wholeRebuilt ==> same)
            && (wholeLive != wholeRebuilt ==> !same)
    ensures account !in live.tally.dropped ==> LostNothing(live.tally, account, cur, window)
    ensures account !in rebuilt.tally.dropped ==> LostNothing(rebuilt.tally, account, cur, window)
  {
    KnownAccount(live, account, cur, window);
    KnownAccount(rebuilt, account, cur, window);
    hide ObserveStore.Valid, SnapshotOf, CellsOf, Buckets, NothingLost, IsGroupingOf, EachCounts, OfTheDay, Scanned;
    RebuiltShowsTheSame(live.tally.log, requests, retries, Everyone, cur, window, bucket, sparse);
    RebuiltShowsTheSame(live.tally.log, requests, retries, Only(account), cur, window, bucket, sparse);
    CellsAreWholeExactlyWhen(live.tally.log, live.tally.since[account], account, cur, window, bucket, sparse);
    CellsAreWholeExactlyWhen(rebuilt.tally.log, rebuilt.tally.since[account], account, cur, window, bucket, sparse);
  }

  predicate HasRing(t: Tally, account: string) {
    account in t.since && t.since[account] <= |t.log|
  }

  /** The cells the heatmap shows for an account, as HeatmapWith says. */
  function OwnCells(t: Tally, account: string, cur: nat, window: nat, bucket: nat, sparse: bool): seq<Cell>
    requires HasRing(t, account) && bucket > 0
  {
    CellsOf(t.log[t.since[account]..], Only(account), cur, window, bucket, sparse, Buckets(window, bucket))
  }

  /** No row of the account before its present ring is of the window. */
  predicate LostNothing(t: Tally, account: string, cur: nat, window: nat)
    requires HasRing(t, account)
  {
    NothingLost(t.log, t.since[account], account, cur - window + 1, cur)
  }

  lemma KnownAccount(store: ObserveStore, account: string, cur: nat, window: nat)
    requires store.Valid() && account in store.accountRings
    ensures HasRing(store.tally, account)
    ensures account !in store.tally.dropped ==> LostNothing(store.tally, account, cur, window)
  {
    var t := store.tally;
    assert account in t.views && account != "";
    hide Separate, Holds, Bounded, Refines;
    TallySizes(t);
  }

  lemma ShorterWindow(a: seq<Row>, b: seq<Row>, scope: Scope, cur: nat, window: nat)
    requires SameSums(a, b, scope, scope, cur, SLOTS) && window <= SLOTS
    ensures SameSums(a, b, scope, scope, cur, window)
  {
    hide SumIn;
  }

  lemma KeptSeparate(globalRing: array<Bucket>, rings: map<string, array<Bucket>>, touched: map<string, int>, t: Tally,
                     seen: set<string>)
    requires Kept(globalRing, rings, touched, t, seen)
    ensures Separate(globalRing, rings)
  {
  }
}
