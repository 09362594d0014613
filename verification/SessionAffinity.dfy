/**
 Which account served each conversation (proxy/session_affinity.go): a bounded map of bindings that
 lapse after an hour.  The reference is the history of all bindings ever made.  Times are seconds.
 */
module SessionAffinity {
  import opened Text

  const TTL := 3600
  const MAX_ENTRIES := 10000

  datatype Binding = Binding(account: string, expiresAt: int)

  datatype Bound = Bound(key: string, account: string, at: int)

  /** The last binding of a conversation. */
  function LastBound(history: seq<Bound>, key: string): Option<Bound> {
    if history == [] then None
    else if history[|history| - 1].key == key then Some(history[|history| - 1])
    else LastBound(history[..|history| - 1], key)
  }

  /** The account a conversation was last bound to, within the hour. */
  function BoundAccount(history: seq<Bound>, key: string, now: int): string {
    match LastBound(history, key)
    case Some(b) => if now <= b.at + TTL then b.account else ""
    case None => ""
  }

  lemma {:induction false} LastBoundIsOf(history: seq<Bound>, key: string)
    ensures LastBound(history, key).Some? ==>
              LastBound(history, key).value.key == key && LastBound(history, key).value in history
  {
    if history != [] && history[|history| - 1].key != key { LastBoundIsOf(history[..|history| - 1], key); }
  }

  lemma LastBoundSnoc(history: seq<Bound>, b: Bound)
    ensures forall key :: LastBound(history + [b], key) == if key == b.key then Some(b) else LastBound(history, key)
  {
    assert (history + [b])[..|history|] == history;
  }

  predicate Live(m: map<string, Binding>, now: int, key: string) {
    key in m && !(now > m[key].expiresAt)
  }

  function LiveKeys(m: map<string, Binding>, now: int): set<string> {
    set key | key in m && Live(m, now, key)
  }

  /** What is held is the last binding of its conversation. */
  ghost predicate Remembers(m: map<string, Binding>, history: seq<Bound>) {
    forall key :: key in m ==>
      LastBound(history, key).Some? && m[key] == Binding(LastBound(history, key).value.account,
                                                         LastBound(history, key).value.at + TTL)
  }

  /** And no binding that still counts is missing, but for those dropped for room. */
  ghost predicate Complete(m: map<string, Binding>, history: seq<Bound>, clock: int, dropped: set<string>) {
    forall key :: key != "" && key !in dropped && BoundAccount(history, key, clock) != "" ==> key in m
  }

  ghost predicate Sound(m: map<string, Binding>, history: seq<Bound>, clock: int, dropped: set<string>) {
    |m| <= MAX_ENTRIES && Remembers(m, history) && AllNamed(history) && Complete(m, history, clock, dropped)
  }

  ghost predicate AllNamed(history: seq<Bound>) {
    forall b :: b in history ==> b.key != "" && b.account != ""
  }

  lemma AllNamedSnoc(history: seq<Bound>, b: Bound)
    requires AllNamed(history) && b.key != "" && b.account != ""
    ensures AllNamed(history + [b])
  {
  }

  class SessionAffinityMap {
    var entries: map<string, Binding>
    ghost var history: seq<Bound>
    ghost var clock: int
    /** The conversations whose last binding was dropped for room while it still counted. */
    ghost var dropped: set<string>

    ghost predicate Valid()
      reads this
    {
      Sound(entries, history, clock, dropped)
    }

    constructor (ghost start: int)
      ensures Valid() && history == [] && clock == start && dropped == {}
    {
      entries, history, clock, dropped := map[], [], start, {};
    }

    /** The account of the last binding within the hour, unless just that binding was dropped for room. */
    method Lookup(key: string, now: int) returns (account: string)
      requires Valid() && clock <= now
      modifies this
      ensures Valid() && history == old(history) && clock == now && dropped == old(dropped)
      ensures account != "" ==> account == BoundAccount(history, key, now)
      ensures key !in dropped ==> account == BoundAccount(history, key, now)
    {
      LastBoundIsOf(history, key);
      CompleteLater(entries, history, clock, now, dropped);
      clock := now;
      if key == "" { return ""; }
      if key !in entries { return ""; }
      var entry := entries[key];
      if now > entry.expiresAt {
        assert BoundAccount(history, key, now) == "";
        entries := entries - {key};
        return "";
      }
      account := entry.account;
    }

    /**
     Binds a conversation, making room first if it is new and the map is full.  The conversation is
     found from now on, whatever was dropped before; others lose a binding only in a crowded map.
     */
    method Bind(key: string, account: string, now: int)
      requires Valid() && clock <= now
      modifies this
      ensures Valid() && clock >= old(clock)
      ensures key == "" || account == "" ==>
                history == old(history) && entries == old(entries) && dropped == old(dropped)
      ensures key != "" && account != "" ==>
                && history == old(history) + [Bound(key, account, now)] && clock == now
                && Live(entries, now, key) && entries[key].account == account && key !in dropped
      ensures dropped <= old(dropped) + LiveKeys(old(entries), now)
      ensures |dropped - old(dropped)| <=
                if key in old(entries) || |old(entries)| < MAX_ENTRIES then 0 else Excess(|LiveKeys(old(entries), now)|)
    {
      if key == "" || account == "" { return; }
      hide Sound, Excess, LiveKeys;
      SoundLater(entries, history, clock, now, dropped);
      clock := now;
      ghost var gone: set<string>;
      var room: map<string, Binding>;
      room, gone := WithRoom(entries, history, now, dropped, key);
      SoundMore(room, history, key, account, now, dropped + gone);
      MoreDropped(dropped, gone, key, LiveKeys(entries, now));
      entries := room[key := Binding(account, now + TTL)];
      history, dropped := history + [Bound(key, account, now)], dropped + gone - {key};
    }
  }

  lemma MoreDropped(dropped: set<string>, gone: set<string>, key: string, live: set<string>)
    requires gone <= live
    ensures var after := dropped + gone - {key};
            key !in after && after <= dropped + live && |after - dropped| <= |gone|
  {
    var added := dropped + gone - {key} - dropped;
    assert added + (gone - added) == gone;
  }

  /** Only a new conversation in a full map makes others give way. */
  method WithRoom(m: map<string, Binding>, ghost history: seq<Bound>, now: int, ghost dropped: set<string>, key: string)
      returns (r: map<string, Binding>, ghost gone: set<string>)
    requires Sound(m, history, now, dropped)
    ensures Sound(r, history, now, dropped + gone) && (key in r || |r| < MAX_ENTRIES)
    ensures gone <= LiveKeys(m, now)
    ensures |gone| == if key in m || |m| < MAX_ENTRIES then 0 else Excess(|LiveKeys(m, now)|)
  {
    hide Remembers, Complete, LiveKeys, AllNamed;
    if key in m || |m| < MAX_ENTRIES {
      assert dropped + {} == dropped;
      return m, {};
    }
    r, gone := Evicted(m, history, now, dropped);
  }

  lemma CompleteLater(m: map<string, Binding>, history: seq<Bound>, clock: int, now: int, dropped: set<string>)
    requires clock <= now && Complete(m, history, clock, dropped)
    ensures Complete(m, history, now, dropped)
  {
    forall key | key != "" && key !in dropped && BoundAccount(history, key, now) != "" ensures key in m {
      assert BoundAccount(history, key, clock) != "";
    }
  }

  lemma SoundLater(m: map<string, Binding>, history: seq<Bound>, clock: int, now: int, dropped: set<string>)
    requires clock <= now && Sound(m, history, clock, dropped)
    ensures Sound(m, history, now, dropped)
  {
    hide Remembers, Complete, AllNamed;
    CompleteLater(m, history, clock, now, dropped);
  }

  lemma SoundMore(m: map<string, Binding>, history: seq<Bound>, key: string, account: string, now: int,
                  dropped: set<string>)
    requires Sound(m, history, now, dropped) && key != "" && account != "" && (key in m || |m| < MAX_ENTRIES)
    ensures Sound(m[key := Binding(account, now + TTL)], history + [Bound(key, account, now)], now, dropped - {key})
  {
    hide Remembers, Complete, AllNamed;
    BoundMore(m, history, key, account, now, dropped);
    AllNamedSnoc(history, Bound(key, account, now));
  }

  lemma BoundMore(m: map<string, Binding>, history: seq<Bound>, key: string, account: string, now: int,
                  dropped: set<string>)
    requires Remembers(m, history) && Complete(m, history, now, dropped) && key != "" && account != ""
    requires |m| <= MAX_ENTRIES && (key in m || |m| < MAX_ENTRIES)
    ensures var m', history' := m[key := Binding(account, now + TTL)], history + [Bound(key, account, now)];
            |m'| <= MAX_ENTRIES && Remembers(m', history') && Complete(m', history', now, dropped - {key})
  {
    LastBoundSnoc(history, Bound(key, account, now));
    var m' := m[key := Binding(account, now + TTL)];
    assert m'.Keys == m.Keys + {key} && |m| == |m.Keys| && |m'| == |m'.Keys|;
    var history' := history + [Bound(key, account, now)];
    forall k | k != "" && k !in dropped - {key} && BoundAccount(history', k, now) != "" ensures k in m' {
      if k != key { assert BoundAccount(history, k, now) != ""; }
    }
  }

  /** How many of so many live bindings are too many. */
  function Excess(live: nat): nat {
    if live <= MAX_ENTRIES * 9 / 10 then 0 else live - MAX_ENTRIES * 9 / 10
  }

  /** evictLocked: first what has lapsed, then just as many others as bring the map to 90%. */
  method Evicted(m: map<string, Binding>, ghost history: seq<Bound>, now: int, ghost dropped: set<string>)
      returns (r: map<string, Binding>, ghost gone: set<string>)
    requires Remembers(m, history) && Complete(m, history, now, dropped)
    ensures Remembers(r, history) && Complete(r, history, now, dropped + gone) && |r| <= MAX_ENTRIES * 9 / 10
    ensures forall key :: key in r ==> Live(m, now, key) && r[key] == m[key]
    ensures gone == LiveKeys(m, now) - r.Keys
    ensures |gone| == Excess(|LiveKeys(m, now)|)
  {
    var live := map k | k in m && !(now > m[k].expiresAt) :: m[k];
    assert live.Keys == LiveKeys(m, now);
    LiveIsComplete(m, live, history, now, dropped);
    hide Remembers, Complete, LiveKeys;
    assert |live| == |live.Keys|;
    r := Trimmed(live);
    gone := live.Keys - r.Keys;
    PartSizes(live, r);
    PartIsComplete(live, r, history, now, dropped);
  }

  /** Drops entries, whichever come first, until the map is under 90%. */
  method Trimmed(live: map<string, Binding>) returns (r: map<string, Binding>)
    ensures |r| <= MAX_ENTRIES * 9 / 10
    ensures forall key :: key in r ==> key in live && r[key] == live[key]
    ensures |live| <= MAX_ENTRIES * 9 / 10 ==> r == live
    ensures |live| > MAX_ENTRIES * 9 / 10 ==> |r| == MAX_ENTRIES * 9 / 10
  {
    r := live;
    var excess := |r| - MAX_ENTRIES * 9 / 10;
    while excess > 0
      invariant excess == |r| - MAX_ENTRIES * 9 / 10
      invariant |live| > MAX_ENTRIES * 9 / 10 ==> excess >= 0
      invariant forall key :: key in r ==> key in live && r[key] == live[key]
      invariant |live| <= MAX_ENTRIES * 9 / 10 ==> r == live
    {
      assert r != map[];
      var key :| key in r;
      OneLess(r, key);
      r := r - {key};
      excess := excess - 1;
    }
  }

  lemma OneLess(m: map<string, Binding>, key: string)
    requires key in m
    ensures |m - {key}| == |m| - 1
  {
    assert (m - {key}).Keys == m.Keys - {key};
    assert |m| == |m.Keys| && |m - {key}| == |(m - {key}).Keys|;
  }

  lemma PartSizes(m: map<string, Binding>, r: map<string, Binding>)
    requires forall key :: key in r ==> key in m
    ensures |m.Keys - r.Keys| == |m| - |r|
  {
    assert r.Keys <= m.Keys && (m.Keys - r.Keys) + r.Keys == m.Keys && |m.Keys| == |m| && |r.Keys| == |r|;
  }

  lemma PartIsComplete(m: map<string, Binding>, r: map<string, Binding>, history: seq<Bound>, now: int,
                       dropped: set<string>)
    requires Remembers(m, history) && Complete(m, history, now, dropped)
    requires forall key :: key in r ==> key in m && r[key] == m[key]
    ensures Remembers(r, history) && Complete(r, history, now, dropped + (m.Keys - r.Keys))
  {
    hide BoundAccount, LastBound;
  }

  lemma LiveIsComplete(m: map<string, Binding>, live: map<string, Binding>, history: seq<Bound>, now: int,
                       dropped: set<string>)
    requires Remembers(m, history) && Complete(m, history, now, dropped)
    requires forall k :: k in live <==> Live(m, now, k)
    requires forall k :: k in live ==> k in m && live[k] == m[k]
    ensures Remembers(live, history) && Complete(live, history, now, dropped)
  {
    forall key | key in m && BoundAccount(history, key, now) != "" ensures key in live {
      assert Live(m, now, key);
    }
  }
}
