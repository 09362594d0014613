/**
 A store crowded by 201 accounts (proxy/observe.go): an account that comes back after its ring was
 dropped shows only what it did since, although all of it was in the last hour.
 */
module CrowdedStore {
  import opened MinuteRing

  function Name(k: nat): (name: string)
    ensures |name| == k + 1
  {
    seq(k + 1, _ => 'a')
  }

  const A_REQUEST := OfRequest(true, 1, 1, 0, 0, 0.0)

  /** The k-th account makes one request in the k-th second. */
  function Requests(n: nat): (log: seq<Row>)
    ensures |log| == n && forall k :: 0 <= k < n ==> log[k] == Row(k / 60, Name(k), A_REQUEST)
  {
    seq(n, k requires 0 <= k < n => Row(k / 60, Name(k), A_REQUEST))
  }

  /** When each of the first n accounts was touched, which is also the number of its row. */
  function Seconds(n: nat): map<string, nat> {
    if n == 0 then map[] else Seconds(n - 1)[Name(n - 1) := n - 1]
  }

  predicate IsName(a: string, n: nat) {
    0 < |a| <= n && a == Name(|a| - 1)
  }

  lemma {:induction false} SecondsAre(n: nat)
    ensures |Seconds(n)| == n
    ensures forall a :: a in Seconds(n) <==> IsName(a, n)
    ensures forall a :: a in Seconds(n) ==> Seconds(n)[a] == |a| - 1
  {
    if n > 0 {
      SecondsAre(n - 1);
      OneMoreSecond(Seconds(n - 1), n);
    }
  }

  lemma OneMoreSecond(before: map<string, nat>, n: nat)
    requires n > 0 && |before| == n - 1
    requires forall a :: a in before <==> IsName(a, n - 1)
    ensures var after := before[Name(n - 1) := n - 1];
            |after| == n && forall a :: a in after <==> IsName(a, n)
  {
    NextName(n);
    hide Name, IsName;
    OneMore(before, Name(n - 1), n - 1);
  }

  lemma NextName(n: nat)
    requires n > 0
    ensures forall a :: IsName(a, n) <==> IsName(a, n - 1) || a == Name(n - 1)
    ensures !IsName(Name(n - 1), n - 1)
  {
    hide Name;
  }

  lemma OneMore(m: map<string, nat>, key: string, value: nat)
    requires key !in m
    ensures |m[key := value]| == |m| + 1
  {
    var after := m[key := value];
    assert after.Keys == m.Keys + {key} && |after.Keys| == |after| && |m.Keys| == |m|;
  }

  method CountAccounts(store: ObserveStore)
    requires store.Valid() && store.tally.log == [] && store.tally.since == map[] == store.accountTouched
    requires store.tally.cur == 0
    modifies store, store.Arrays()
    ensures store.Valid() && store.tally.log == Requests(MAX_RINGS) && store.tally.since == Seconds(MAX_RINGS)
    ensures store.accountTouched == Seconds(MAX_RINGS) && store.tally.cur <= MAX_RINGS / 60
    ensures fresh(store.Arrays() - old(store.Arrays()))
  {
    hide ObserveStore.Valid, Requests, Seconds, Name, RingGiven, OfRequest;
    FirstSeconds();
    var n := 0;
    while n < MAX_RINGS
      invariant 0 <= n <= MAX_RINGS && store.Valid() && fresh(store.Arrays() - old(store.Arrays()))
      invariant store.tally.log == Requests(n) && store.tally.since == Seconds(n) && store.accountTouched == Seconds(n)
      invariant store.tally.cur <= n / 60
    {
      ghost var before, touched := store.tally, store.accountTouched;
      store.CountRequest(n, Name(n), true, 1, 1, 0, 0, 0.0);
      OneMoreRequest(n, before, store.tally, touched, store.accountTouched);
      n := n + 1;
    }
  }

  lemma FirstSeconds()
    ensures Requests(0) == [] && Seconds(0) == map[]
  {
  }

  lemma OneMoreRequest(n: nat, t: Tally, t': Tally, touched: map<string, int>, touched': map<string, int>)
    requires n < MAX_RINGS && t.log == Requests(n) && t.since == Seconds(n) && touched == Seconds(n)
    requires t'.log == t.log + [Row(n / 60, Name(n), OfRequest(true, 1, 1, 0, 0, 0.0))]
    requires RingGiven(touched, touched', t, t', Name(n), n)
    ensures t'.log == Requests(n + 1) && t'.since == Seconds(n + 1) && touched' == Seconds(n + 1)
  {
    hide Seconds, Requests, Name, OfRequest, IsOldest;
    SecondsAre(n);
    assert Name(n) !in touched;
    MoreRequests(n);
  }

  lemma MoreRequests(n: nat)
    ensures Requests(n + 1) == Requests(n) + [Row(n / 60, Name(n), A_REQUEST)]
    ensures Seconds(n + 1) == Seconds(n)[Name(n) := n]
  {
  }

  /** The 201st account takes the place of the first. */
  lemma FirstGivesWay(t: Tally, t': Tally, touched: map<string, int>, touched': map<string, int>)
    requires touched == Seconds(MAX_RINGS) && t.since == Seconds(MAX_RINGS)
    requires RingGiven(touched, touched', t, t', Name(MAX_RINGS), MAX_RINGS)
    ensures Name(0) !in touched' && |touched'| == MAX_RINGS
  {
    hide Seconds, Name;
    SecondsAre(MAX_RINGS);
    assert IsName(Name(0), MAX_RINGS) && IsName(Name(1), MAX_RINGS);
    OldestIsFirst(touched);
    var victim :| IsOldest(touched, victim)
                  && VictimGone(touched, touched', t, t', Name(MAX_RINGS), MAX_RINGS, victim);
    assert touched'.Keys == touched.Keys - {Name(0)} + {Name(MAX_RINGS)};
    assert |touched'| == |touched'.Keys| && |touched| == |touched.Keys|;
  }

  lemma OldestIsFirst(touched: map<string, int>)
    requires touched == Seconds(MAX_RINGS)
    ensures forall victim :: IsOldest(touched, victim) ==> victim == Name(0)
  {
    hide Seconds, Name;
    SecondsAre(MAX_RINGS);
    assert IsName(Name(0), MAX_RINGS);
  }

  lemma BegunAnew(t: Tally, t': Tally, touched: map<string, int>, touched': map<string, int>, account: string,
                  now: int)
    requires account !in touched && RingGiven(touched, touched', t, t', account, now)
    ensures account in t'.since && t'.since[account] == |t.log| && account in touched'
  {
  }

  /** Whether a store has counted a request of each of 201 accounts and no longer knows the first. */
  ghost predicate IsCrowded(store: ObserveStore)
    reads store, store.Arrays()
  {
    && store.Valid() && store.tally.log == Requests(MAX_RINGS + 1) && Name(0) !in store.accountTouched
    && store.tally.cur == MAX_RINGS / 60
  }

  method Crowd() returns (store: ObserveStore)
    ensures IsCrowded(store) && fresh(store) && fresh(store.Arrays())
  {
    hide ObserveStore.Valid, Requests, Seconds, RingGiven, Name, OfRequest;
    store := new ObserveStore();
    CountAccounts(store);
    ghost var t, touched := store.tally, store.accountTouched;
    store.CountRequest(MAX_RINGS, Name(MAX_RINGS), true, 1, 1, 0, 0, 0.0);
    FirstGivesWay(t, store.tally, touched, store.accountTouched);
    MoreRequests(MAX_RINGS);
  }

  /**
   An account can lose rows in this way: 201 accounts make a request each, a second apart, and then the
   first makes another.  Its heatmap of that hour shows only the last.
   */
  method CrowdedOut() returns (store: ObserveStore, shown: seq<Cell>)
    ensures store.Valid()
    ensures store.tally.log == Requests(MAX_RINGS + 1) + [Row((MAX_RINGS + 1) / 60, Name(0), A_REQUEST)]
    ensures shown == HourOf(store.tally.log[MAX_RINGS + 1..]) && shown != HourOf(store.tally.log)
  {
    hide ObserveStore.Valid, CellsOf, Buckets, Requests, RingGiven, Name, OfRequest;
    store := Crowd();
    ghost var t, touched := store.tally, store.accountTouched;
    store.CountRequest(MAX_RINGS + 1, Name(0), true, 1, 1, 0, 0, 0.0);
    BegunAnew(t, store.tally, touched, store.accountTouched, Name(0), MAX_RINGS + 1);
    store.TouchedHaveRings(Name(0));
    var _, _, _, accounts := store.HeatmapWith(MAX_RINGS + 1, 60, 1, false, false);
    shown := accounts[Name(0)];
    HalfIsLost(store.tally.log);
  }

  /** The first account's cells of the hour that ends with the last request. */
  function HourOf(log: seq<Row>): seq<Cell> {
    CellsOf(log, Only(Name(0)), (MAX_RINGS + 1) / 60, 60, 1, false, Buckets(60, 1))
  }

  lemma HalfIsLost(log: seq<Row>)
    requires log == Requests(MAX_RINGS + 1) + [Row((MAX_RINGS + 1) / 60, Name(0), A_REQUEST)]
    ensures HourOf(log[MAX_RINGS + 1..]) != HourOf(log)
  {
    hide CellsOf, Buckets;
    var cur := (MAX_RINGS + 1) / 60;
    assert Concerns(log[0], Only(Name(0)), cur - 60 + 1, cur);
    CellsAreWholeExactlyWhen(log, MAX_RINGS + 1, Name(0), cur, 60, 1, false);
  }
}
