/**
 The prompt-cache index (proxy/cache_tracker.go): which block prefixes of a request an account has
 stored and not let expire, and how the request's input is reported as read, created and fresh.
 SHA-256 is taken as collision-free: a fingerprint is the bytes that were hashed.  Times and
 lifetimes are seconds.
 */
module PromptCache {
  import opened Text

  // ---------------------------------------------------------------- fingerprints

  /** Go's strconv.Itoa for a length. */
  function Itoa(n: nat): (s: string)
    ensures s != "" && forall i :: 0 <= i < |s| ==> '0' <= s[i] <= '9'
  {
    var digit := ('0' as int + n % 10) as char;
    if n < 10 then [digit] else Itoa(n / 10) + [digit]
  }

  function Value(s: string): int {
    if s == "" then 0 else Value(s[..|s| - 1]) * 10 + (s[|s| - 1] as int - '0' as int)
  }

  lemma {:induction false} ValueOfItoa(n: nat)
    ensures Value(Itoa(n)) == n
  {
    if n < 10 {
      assert Itoa(n)[..0] == "";
    } else {
      ValueOfItoa(n / 10);
      assert Itoa(n)[..|Itoa(n)| - 1] == Itoa(n / 10);
    }
  }

  const NUL := 0 as char

  /** One chunk as it is fed to the hash: length, separator, text, separator. */
  function Chunk(text: string): string {
    Itoa(|text|) + [NUL] + text + [NUL]
  }

  function EncodeBlocks(blocks: seq<string>): string {
    if blocks == [] then "" else EncodeBlocks(blocks[..|blocks| - 1]) + Chunk(blocks[|blocks| - 1])
  }

  /** The same from the front, to read it back in order. */
  function EncodeForward(blocks: seq<string>): string {
    if blocks == [] then "" else Chunk(blocks[0]) + EncodeForward(blocks[1..])
  }

  lemma {:induction false} EncodeForwardSnoc(blocks: seq<string>, last: string)
    ensures EncodeForward(blocks + [last]) == EncodeForward(blocks) + Chunk(last)
  {
    hide Chunk;
    if blocks == [] {
      assert [] + [last] == [last] && [last][1..] == [];
      assert Chunk(last) + "" == Chunk(last) == "" + Chunk(last);
    } else {
      EncodeForwardSnoc(blocks[1..], last);
      assert (blocks + [last])[1..] == blocks[1..] + [last];
      ConcatAssociative(Chunk(blocks[0]), EncodeForward(blocks[1..]), Chunk(last));
    }
  }

  lemma {:induction false} EncodeBothWays(blocks: seq<string>)
    ensures EncodeBlocks(blocks) == EncodeForward(blocks)
  {
    hide Chunk;
    if blocks != [] {
      EncodeBothWays(blocks[..|blocks| - 1]);
      EncodeForwardSnoc(blocks[..|blocks| - 1], blocks[|blocks| - 1]);
      assert blocks[..|blocks| - 1] + [blocks[|blocks| - 1]] == blocks;
    }
  }

  /** The length prefix says where a chunk ends: equal texts that start with chunks start with the same chunk. */
  lemma ChunkIsPrefixFree(a: string, b: string, x: string, y: string)
    requires Chunk(a) + x == Chunk(b) + y
    ensures a == b && x == y
  {
    var left, right := Chunk(a) + x, Chunk(b) + y;
    var n, m := |Itoa(|a|)|, |Itoa(|b|)|;
    assert left[n] == NUL && right[m] == NUL;
    assert forall i :: 0 <= i < n ==> left[i] == Itoa(|a|)[i];
    assert forall i :: 0 <= i < m ==> right[i] == Itoa(|b|)[i];
    assert n == m;
    assert left[..n] == Itoa(|a|) && right[..m] == Itoa(|b|);
    ValueOfItoa(|a|);
    ValueOfItoa(|b|);
    assert left[n + 1..n + 1 + |a|] == a && right[n + 1..n + 1 + |a|] == b;
    assert left[|Chunk(a)|..] == x && right[|Chunk(b)|..] == y;
  }

  lemma {:induction false} EncodeForwardInjective(a: seq<string>, b: seq<string>)
    requires EncodeForward(a) == EncodeForward(b)
    ensures a == b
  {
    if a == [] || b == [] {
      ChunkNotEmpty();
    } else {
      hide Chunk;
      ChunkIsPrefixFree(a[0], b[0], EncodeForward(a[1..]), EncodeForward(b[1..]));
      EncodeForwardInjective(a[1..], b[1..]);
      assert a == [a[0]] + a[1..] && b == [b[0]] + b[1..];
    }
  }

  lemma ChunkNotEmpty()
    ensures forall text :: Chunk(text) != ""
  {
  }

  /** Equal fingerprints mean equal block prefixes, block by block. */
  lemma FingerprintsIdentifyPrefixes(a: seq<string>, b: seq<string>)
    requires EncodeBlocks(a) == EncodeBlocks(b)
    ensures a == b
  {
    EncodeBothWays(a);
    EncodeBothWays(b);
    EncodeForwardInjective(a, b);
  }

  // ---------------------------------------------------------------- profiles

  const DEFAULT_TTL := 300
  const HOUR := 3600

  /** A prompt block: its canonical text, size, lifetime marker (0 for none) and whether a message ends with it. */
  datatype Block = Block(text: string, tokens: nat, ttl: nat, isMessageEnd: bool)

  datatype Breakpoint = Breakpoint(fingerprint: string, tokens: nat, ttl: nat)

  datatype Profile = Profile(breakpoints: seq<Breakpoint>, total: nat, minTokens: nat)

  function Texts(blocks: seq<Block>): seq<string> {
    if blocks == [] then [] else Texts(blocks[..|blocks| - 1]) + [blocks[|blocks| - 1].text]
  }

  function Tokens(blocks: seq<Block>): nat {
    if blocks == [] then 0 else Tokens(blocks[..|blocks| - 1]) + blocks[|blocks| - 1].tokens
  }

  /** The lifetime marker in force after some blocks: the last one seen. */
  function ActiveTtl(blocks: seq<Block>): nat {
    if blocks == [] then 0
    else if blocks[|blocks| - 1].ttl > 0 then blocks[|blocks| - 1].ttl
    else ActiveTtl(blocks[..|blocks| - 1])
  }

  /**
   The lifetime of the prefix `blocks` as a breakpoint, 0 if it is none: it ends with a marker, or with a
   message after one.
   */
  function PrefixTtl(blocks: seq<Block>): nat
    requires blocks != []
  {
    var last := blocks[|blocks| - 1];
    if last.ttl > 0 then last.ttl else if last.isMessageEnd then ActiveTtl(blocks[..|blocks| - 1]) else 0
  }

  /** The breakpoints of a prompt: each prefix with a lifetime, with its fingerprint and size. */
  function Breakpoints(blocks: seq<Block>): seq<Breakpoint> {
    if blocks == [] then []
    else
      Breakpoints(blocks[..|blocks| - 1]) +
      (if PrefixTtl(blocks) > 0 then [Breakpoint(EncodeBlocks(Texts(blocks)), Tokens(blocks), PrefixTtl(blocks))]
       else [])
  }

  method BuildClaudeProfile(blocks: seq<Block>, totalInputTokens: nat, minTokens: nat) returns (r: Option<Profile>)
    ensures r.None? <==> Breakpoints(blocks) == []
    ensures r.Some? ==> r.value.breakpoints == Breakpoints(blocks) && r.value.minTokens == minTokens
    ensures r.Some? ==> r.value.total == if totalInputTokens < Tokens(blocks) then Tokens(blocks) else totalInputTokens
  {
    hide *;
    if |blocks| == 0 {
      NothingRead();
      return None;
    }
    var hasher, breakpoints := "", [];
    var cumulativeTokens: nat, activeTtl: nat := 0, 0;
    NothingRead();
    var i := 0;
    assert blocks[..0] == [];
    while i < |blocks|
      invariant 0 <= i <= |blocks|
      invariant ReadSoFar(blocks[..i], hasher, cumulativeTokens, activeTtl, breakpoints)
    {
      hasher, cumulativeTokens, activeTtl, breakpoints :=
        AppendBlock(blocks, i, hasher, cumulativeTokens, activeTtl, breakpoints);
      i := i + 1;
    }
    assert blocks[..|blocks|] == blocks;
    ReadMeans(blocks, hasher, cumulativeTokens, activeTtl, breakpoints);
    if |breakpoints| == 0 { return None; }
    var total := if totalInputTokens < cumulativeTokens then cumulativeTokens else totalInputTokens;
    return Some(Profile(breakpoints, total, minTokens));
  }

  /** A block is hashed and counted, and is a breakpoint if it has a lifetime or ends a message after one that had. */
  method AppendBlock(blocks: seq<Block>, i: nat, hasher: string, cumulativeTokens: nat, activeTtl: nat,
                     breakpoints: seq<Breakpoint>)
      returns (hasher': string, cumulativeTokens': nat, activeTtl': nat, breakpoints': seq<Breakpoint>)
    requires i < |blocks| && ReadSoFar(blocks[..i], hasher, cumulativeTokens, activeTtl, breakpoints)
    ensures ReadSoFar(blocks[..i + 1], hasher', cumulativeTokens', activeTtl', breakpoints')
  {
    hide *;
    var block := blocks[i];
    hasher', cumulativeTokens' := hasher + Chunk(block.text), cumulativeTokens + block.tokens;
    activeTtl', breakpoints' := activeTtl, breakpoints;
    var breakpointTtl := 0;
    if block.ttl > 0 {
      breakpointTtl, activeTtl' := block.ttl, block.ttl;
    } else if block.isMessageEnd && activeTtl > 0 {
      breakpointTtl := activeTtl;
    }
    if breakpointTtl > 0 {
      breakpoints' := breakpoints' + [Breakpoint(hasher', cumulativeTokens', breakpointTtl)];
    }
    ReadStep(blocks, i, hasher, cumulativeTokens, activeTtl, breakpoints, breakpointTtl);
  }

  ghost predicate ReadSoFar(blocks: seq<Block>, hasher: string, cumulativeTokens: nat, activeTtl: nat,
                            breakpoints: seq<Breakpoint>) {
    && hasher == EncodeBlocks(Texts(blocks)) && cumulativeTokens == Tokens(blocks)
    && activeTtl == ActiveTtl(blocks) && breakpoints == Breakpoints(blocks)
  }

  lemma NothingRead()
    ensures ReadSoFar([], "", 0, 0, []) && Breakpoints([]) == []
  {
  }

  lemma ReadMeans(blocks: seq<Block>, hasher: string, cumulativeTokens: nat, activeTtl: nat,
                  breakpoints: seq<Breakpoint>)
    requires ReadSoFar(blocks, hasher, cumulativeTokens, activeTtl, breakpoints)
    ensures cumulativeTokens == Tokens(blocks) && breakpoints == Breakpoints(blocks)
  {
    hide Tokens, Breakpoints, EncodeBlocks, Texts, ActiveTtl;
  }

  lemma ReadStep(blocks: seq<Block>, i: nat, hasher: string, cumulativeTokens: nat, activeTtl: nat,
                 breakpoints: seq<Breakpoint>, ttl: nat)
    requires i < |blocks| && ReadSoFar(blocks[..i], hasher, cumulativeTokens, activeTtl, breakpoints)
    requires var block := blocks[i];
             ttl == if block.ttl > 0 then block.ttl else if block.isMessageEnd then activeTtl else 0
    ensures var block := blocks[i];
            var hasher', tokens' := hasher + Chunk(block.text), cumulativeTokens + block.tokens;
            ReadSoFar(blocks[..i + 1], hasher', tokens', if block.ttl > 0 then block.ttl else activeTtl,
                      if ttl > 0 then breakpoints + [Breakpoint(hasher', tokens', ttl)] else breakpoints)
  {
    hide EncodeBlocks, Texts, Chunk;
    PrefixStep(blocks, i);
    LastBlock(blocks[..i + 1]);
    hide Tokens, ActiveTtl, Breakpoints;
    assert breakpoints + [] == breakpoints;
  }

  lemma LastBlock(blocks: seq<Block>)
    requires blocks != []
    ensures var before, last := blocks[..|blocks| - 1], blocks[|blocks| - 1];
            && Tokens(blocks) == Tokens(before) + last.tokens
            && ActiveTtl(blocks) == (if last.ttl > 0 then last.ttl else ActiveTtl(before))
            && Breakpoints(blocks) == Breakpoints(before) +
                 (if PrefixTtl(blocks) > 0
                  then [Breakpoint(EncodeBlocks(Texts(blocks)), Tokens(blocks), PrefixTtl(blocks))] else [])
  {
    hide EncodeBlocks, Texts;
  }

  lemma PrefixStep(blocks: seq<Block>, i: nat)
    requires i < |blocks|
    ensures var before, after := blocks[..i], blocks[..i + 1];
            && after[..|after| - 1] == before && after[|after| - 1] == blocks[i]
            && EncodeBlocks(Texts(after)) == EncodeBlocks(Texts(before)) + Chunk(blocks[i].text)
  {
    hide Chunk;
    var before, after := blocks[..i], blocks[..i + 1];
    assert after[..|after| - 1] == before;
    assert Texts(after)[..|Texts(after)| - 1] == Texts(before);
  }

  /** Every breakpoint stands for a prefix of the prompt. */
  lemma {:induction false} BreakpointIsPrefix(blocks: seq<Block>, k: nat) returns (n: nat)
    requires k < |Breakpoints(blocks)|
    ensures 0 < n <= |blocks|
    ensures Breakpoints(blocks)[k]
              == Breakpoint(EncodeBlocks(Texts(blocks[..n])), Tokens(blocks[..n]), PrefixTtl(blocks[..n]))
    ensures PrefixTtl(blocks[..n]) > 0
  {
    hide EncodeBlocks, Texts, Tokens, PrefixTtl;
    var init := blocks[..|blocks| - 1];
    if k < |Breakpoints(init)| {
      n := BreakpointIsPrefix(init, k);
      assert init[..n] == blocks[..n];
    } else {
      n := |blocks|;
      assert blocks[..n] == blocks;
    }
  }

  /** The breakpoints of a translated request: every prefix of its stable blocks that reaches the floor. */
  function StableBreakpoints(blocks: seq<Block>, minTokens: nat, total: nat): seq<Breakpoint> {
    if blocks == [] then []
    else
      StableBreakpoints(blocks[..|blocks| - 1], minTokens, total) +
      (if Tokens(blocks) >= minTokens
       then [Breakpoint(EncodeBlocks(Texts(blocks)), Min(Tokens(blocks), total), DEFAULT_TTL)] else [])
  }

  /** `stable` is the model, the settings and the tools; the message being answered is in no fingerprint. */
  method BuildOpenAIProfile(stable: Block, earlier: seq<Block>, totalInputTokens: int, minTokens: nat)
      returns (r: Option<Profile>)
    ensures r.None? <==>
              totalInputTokens <= 0 || StableBreakpoints([stable] + earlier, minTokens, totalInputTokens) == []
    ensures r.Some? ==> r.value == Profile(StableBreakpoints([stable] + earlier, minTokens, totalInputTokens),
                                           totalInputTokens, minTokens)
  {
    if totalInputTokens <= 0 { return None; }
    hide StableSoFar, StableBreakpoints, EncodeBlocks, Texts, Tokens;
    ghost var blocks := [stable] + earlier;
    NothingStable(minTokens, totalInputTokens);
    assert blocks[..0] == [];
    var hasher, cumulativeTokens, breakpoints :=
        AppendStable(blocks, 0, stable, minTokens, totalInputTokens, "", 0, []);
    var i := 0;
    while i < |earlier|
      invariant 0 <= i <= |earlier|
      invariant StableSoFar(blocks[..i + 1], minTokens, totalInputTokens, hasher, cumulativeTokens, breakpoints)
    {
      assert blocks[i + 1] == earlier[i];
      hasher, cumulativeTokens, breakpoints :=
        AppendStable(blocks, i + 1, earlier[i], minTokens, totalInputTokens, hasher, cumulativeTokens, breakpoints);
      i := i + 1;
    }
    assert blocks[..|earlier| + 1] == blocks;
    StableMeans(blocks, minTokens, totalInputTokens, hasher, cumulativeTokens, breakpoints);
    if |breakpoints| == 0 { return None; }
    return Some(Profile(breakpoints, totalInputTokens, minTokens));
  }

  /** A stable block is hashed and counted, and is a breakpoint if the floor is reached. */
  method AppendStable(ghost blocks: seq<Block>, ghost i: nat, block: Block, minTokens: nat, total: nat,
                      hasher: string, cumulativeTokens: nat, breakpoints: seq<Breakpoint>)
      returns (hasher': string, cumulativeTokens': nat, breakpoints': seq<Breakpoint>)
    requires i < |blocks| && blocks[i] == block
               && StableSoFar(blocks[..i], minTokens, total, hasher, cumulativeTokens, breakpoints)
    ensures StableSoFar(blocks[..i + 1], minTokens, total, hasher', cumulativeTokens', breakpoints')
  {
    PrefixStep(blocks, i);
    hide EncodeBlocks, Texts, Chunk;
    hasher', cumulativeTokens', breakpoints' :=
        hasher + Chunk(block.text), cumulativeTokens + block.tokens, breakpoints;
    if cumulativeTokens' >= minTokens {
      breakpoints' := breakpoints' + [Breakpoint(hasher', Min(cumulativeTokens', total), DEFAULT_TTL)];
    }
  }

  predicate StableSoFar(blocks: seq<Block>, minTokens: nat, total: nat, hasher: string, cumulativeTokens: nat,
                        breakpoints: seq<Breakpoint>) {
    hasher == EncodeBlocks(Texts(blocks)) && cumulativeTokens == Tokens(blocks)
        && breakpoints == StableBreakpoints(blocks, minTokens, total)
  }

  lemma NothingStable(minTokens: nat, total: nat)
    ensures StableSoFar([], minTokens, total, "", 0, [])
  {
  }

  lemma StableMeans(blocks: seq<Block>, minTokens: nat, total: nat, hasher: string, cumulativeTokens: nat,
                    breakpoints: seq<Breakpoint>)
    requires StableSoFar(blocks, minTokens, total, hasher, cumulativeTokens, breakpoints)
    ensures breakpoints == StableBreakpoints(blocks, minTokens, total)
  {
  }

  lemma {:induction false} StableBreakpointIsPrefix(blocks: seq<Block>, minTokens: nat, total: nat, k: nat)
      returns (n: nat)
    requires k < |StableBreakpoints(blocks, minTokens, total)|
    ensures 0 < n <= |blocks| && Tokens(blocks[..n]) >= minTokens
    ensures StableBreakpoints(blocks, minTokens, total)[k]
              == Breakpoint(EncodeBlocks(Texts(blocks[..n])), Min(Tokens(blocks[..n]), total), DEFAULT_TTL)
  {
    hide EncodeBlocks, Texts;
    var init := blocks[..|blocks| - 1];
    if k < |StableBreakpoints(init, minTokens, total)| {
      n := StableBreakpointIsPrefix(init, minTokens, total, k);
      assert init[..n] == blocks[..n];
    } else {
      n := |blocks|;
      assert blocks[..n] == blocks;
    }
  }

  // ---------------------------------------------------------------- what is stored

  datatype Entry = Entry(expiresAt: int, ttl: nat)

  /** What happened to the index: a prefix was stored, or a hit renewed it. */
  datatype Event =
    | Stored(account: string, fingerprint: string, at: int, ttl: nat)
    | Renewed(account: string, fingerprint: string, at: int)

  /** The entry an index that never forgets would hold after a history. */
  function EntryAfter(history: seq<Event>, account: string, fingerprint: string): Option<Entry> {
    if history == [] then None
    else
      var before := EntryAfter(history[..|history| - 1], account, fingerprint);
      match history[|history| - 1]
      case Stored(a, f, at, ttl) => if a == account && f == fingerprint then Some(Entry(at + ttl, ttl)) else before
      case Renewed(a, f, at) =>
        if a == account && f == fingerprint && before.Some? then Some(Entry(at + before.value.ttl, before.value.ttl))
            else before
  }

  /** Stored for the account and not expired at `now`. */
  predicate LiveIn(history: seq<Event>, account: string, fingerprint: string, now: int) {
    var e := EntryAfter(history, account, fingerprint);
    e.Some? && e.value.expiresAt > now
  }

  ghost predicate AnyLive(history: seq<Event>, account: string, now: int) {
    exists f :: LiveIn(history, account, f, now)
  }

  /** What is in the history was stored by somebody for that very account. */
  lemma {:induction false} LiveMeansStored(history: seq<Event>, account: string, fingerprint: string) returns (k: nat)
    requires EntryAfter(history, account, fingerprint).Some?
    ensures k < |history| && history[k].Stored? && history[k].account == account
              && history[k].fingerprint == fingerprint
    ensures history[k].ttl == EntryAfter(history, account, fingerprint).value.ttl
  {
    var last := history[|history| - 1];
    if last.Stored? && last.account == account && last.fingerprint == fingerprint {
      k := |history| - 1;
    } else {
      k := LiveMeansStored(history[..|history| - 1], account, fingerprint);
    }
  }

  /** The deepest breakpoint above the floor whose prefix is live. */
  function DeepestLive(history: seq<Event>, account: string, profile: Profile, now: int, k: nat): (hit: Option<nat>)
    requires k <= |profile.breakpoints|
    ensures hit.Some? ==> hit.value < k && profile.breakpoints[hit.value].tokens >= profile.minTokens
                          && LiveIn(history, account, profile.breakpoints[hit.value].fingerprint, now)
    ensures forall j :: (if hit.Some? then hit.value + 1 else 0) <= j < k ==>
              profile.breakpoints[j].tokens < profile.minTokens
                  || !LiveIn(history, account, profile.breakpoints[j].fingerprint, now)
    decreases k
  {
    if k == 0 then None
    else if profile.breakpoints[k - 1].tokens >= profile.minTokens
        && LiveIn(history, account, profile.breakpoints[k - 1].fingerprint, now)
    then Some(k - 1)
    else DeepestLive(history, account, profile, now, k - 1)
  }

  /** The events of storing a profile's breakpoints above the floor. */
  function StoreEvents(account: string, profile: Profile, now: int): seq<Event> {
    var minTokens := profile.minTokens;
    Collect(profile.breakpoints, (b: Breakpoint) => if b.tokens < minTokens then []
            else [Stored(account, b.fingerprint, now, b.ttl)])
  }

  // ---------------------------------------------------------------- usage

  datatype Usage = Usage(creation: int, read: int, creation5m: int, creation1h: int)

  const NO_USAGE := Usage(0, 0, 0, 0)

  function Min(a: int, b: int): int {
    if a < b then a else b
  }

  function Max(a: int, b: int): int {
    if a > b then a else b
  }

  /** The first breakpoint of the list, whose prefix holds the token at `position`. */
  function FirstPast(breakpoints: seq<Breakpoint>, position: int): (r: Option<Breakpoint>)
    ensures r.None? <==> forall b :: b in breakpoints ==> b.tokens <= position
  {
    if breakpoints == [] then None
    else if breakpoints[0].tokens > position then Some(breakpoints[0])
    else FirstPast(breakpoints[1..], position)
  }

  /** How many of the tokens at positions lo..hi are first reached by a breakpoint that lives an hour. */
  function HourTokens(breakpoints: seq<Breakpoint>, lo: int, hi: int): (n: nat)
    decreases hi - lo
  {
    if hi <= lo then 0
    else
      HourTokens(breakpoints, lo, hi - 1) +
      match FirstPast(breakpoints, hi - 1) case Some(b) => (if b.ttl >= HOUR then 1 else 0) case None => 0
  }

  lemma {:induction false} FirstPastIs(breakpoints: seq<Breakpoint>, i: nat, position: int)
    requires i < |breakpoints| && breakpoints[i].tokens > position
    requires forall j :: 0 <= j < i ==> breakpoints[j].tokens <= position
    ensures FirstPast(breakpoints, position) == Some(breakpoints[i])
  {
    if i > 0 { FirstPastIs(breakpoints[1..], i - 1, position); }
  }

  /** The stretch that breakpoint i is the first to reach counts as a whole. */
  lemma {:induction false} HourTokensStretch(breakpoints: seq<Breakpoint>, i: nat, lo: int, start: int, stop: int)
    requires i < |breakpoints| && lo <= start <= stop <= breakpoints[i].tokens
    requires forall j :: 0 <= j < i ==> breakpoints[j].tokens <= start
    ensures HourTokens(breakpoints, lo, stop) == HourTokens(breakpoints, lo, start) +
              (if breakpoints[i].ttl >= HOUR then stop - start else 0)
    decreases stop - start
  {
    hide FirstPast;
    if start < stop {
      HourTokensStretch(breakpoints, i, lo, start, stop - 1);
      FirstPastIs(breakpoints, i, stop - 1);
    }
  }

  /**
   Splits the created tokens by the lifetime of the first breakpoint that reaches each; nothing is lost or
   counted twice.
   */
  method TtlBreakdownLimited(profile: Profile, matched: nat, creation: nat) returns (cache5m: int, cache1h: int)
    requires profile.breakpoints != []
    requires var last := profile.breakpoints[|profile.breakpoints| - 1];
             matched + creation <= Max(matched, Min(last.tokens, profile.total))
    ensures cache5m + cache1h == creation && cache5m >= 0 && cache1h >= 0
    ensures cache1h == HourTokens(profile.breakpoints, matched, matched + creation)
  {
    hide HourTokens, FirstPast;
    cache5m, cache1h := 0, 0;
    var previous := matched;
    var i := 0;
    NoHourTokens(profile.breakpoints, matched);
    while i < |profile.breakpoints|
      invariant 0 <= i <= |profile.breakpoints|
      invariant cache5m + cache1h == previous - matched && cache5m >= 0 && cache1h >= 0
      invariant matched <= previous <= matched + creation
      invariant i == |profile.breakpoints| ==> previous == matched + creation
      invariant previous == matched + creation || forall j :: 0 <= j < i ==> profile.breakpoints[j].tokens <= previous
      invariant cache1h == HourTokens(profile.breakpoints, matched, previous)
    {
      var b := profile.breakpoints[i];
      var current := Min(b.tokens, Min(profile.total, matched + creation));
      if current > previous {
        var delta := current - previous;
        HourTokensStretch(profile.breakpoints, i, matched, previous, current);
        if b.ttl >= HOUR { cache1h := cache1h + delta; } else { cache5m := cache5m + delta; }
        previous := current;
      }
      i := i + 1;
    }
  }

  lemma NoHourTokens(breakpoints: seq<Breakpoint>, at: int)
    ensures HourTokens(breakpoints, at, at) == 0
  {
  }

  // ---------------------------------------------------------------- the index

  predicate Held(entries: map<string, map<string, Entry>>, account: string, fingerprint: string) {
    account in entries && fingerprint in entries[account]
  }

  /** From `clock` on, the pruned index and the full history agree on what is live. */
  ghost predicate Faithful(entries: map<string, map<string, Entry>>, history: seq<Event>, clock: int) {
    forall account, fingerprint ::
      if Held(entries, account, fingerprint) && entries[account][fingerprint].expiresAt > clock then
        EntryAfter(history, account, fingerprint) == Some(entries[account][fingerprint])
      else
        !LiveIn(history, account, fingerprint, clock)
  }

  /** What an account holds is exactly what is live for it. */
  ghost predicate Exact(held: map<string, Entry>, history: seq<Event>, account: string, now: int) {
    && (forall f :: f in held <==> LiveIn(history, account, f, now))
    && (forall f :: f in held ==> EntryAfter(history, account, f) == Some(held[f]))
  }

  class PromptCacheTracker {
    var entries: map<string, map<string, Entry>>
    /** Everything stored and renewed so far, and the time of the last operation. */
    ghost var history: seq<Event>
    ghost var clock: int

    ghost predicate Valid()
      reads this
    {
      Faithful(entries, history, clock)
    }

    constructor (ghost start: int)
      ensures Valid() && history == [] && clock == start
    {
      entries, history, clock := map[], [], start;
    }

    /** Drops what has expired, and accounts left with nothing: what is held is then exactly what is live. */
    method PruneExpired(now: int)
      requires Valid() && now >= clock
      modifies this
      ensures Valid() && history == old(history) && clock == now
      ensures entries == Pruned(old(entries), now)
      ensures forall a :: Exact(if a in entries then entries[a] else map[], history, a, now)
      ensures forall a :: a in entries ==> entries[a] != map[]
    {
      var pruned := PruneAll(entries, now);
      PruningIsExact(entries, history, clock, now);
      entries, clock := pruned, now;
    }

    /** Stores the breakpoints above the floor. */
    method Update(account: string, profile: Profile, now: int)
      requires Valid() && now >= clock
      modifies this
      ensures Valid()
      ensures account == "" || profile.breakpoints == [] ==>
                entries == old(entries) && history == old(history) && clock == old(clock)
      ensures account != "" && profile.breakpoints != [] ==>
                clock == now && history == old(history) + StoreEvents(account, profile, now)
    {
      if |profile.breakpoints| == 0 || account == "" { return; }
      hide Faithful, Exact, Pruned, StoreEvents, EntryAfter;
      PruneExpired(now);
      var stored := StoreAll(entries, history, account, profile, now);
      entries := stored;
      history := history + StoreEvents(account, profile, now);
    }

    /** A hit lives another lifetime from now on. */
    method Renew(account: string, fingerprint: string, now: int)
      requires Valid() && clock == now && account in entries && fingerprint in entries[account]
                 && Exact(entries[account], history, account, now)
      modifies this
      ensures Valid() && clock == now && history == old(history) + [Renewed(account, fingerprint, now)]
      ensures var ttl := old(entries)[account][fingerprint].ttl;
              entries == old(entries)[account := old(entries)[account][fingerprint := Entry(now + ttl, ttl)]]
    {
      hide Faithful, Exact;
      var ttl := entries[account][fingerprint].ttl;
      RenewalIsFaithful(entries, history, account, fingerprint, now);
      entries := entries[account := entries[account][fingerprint := Entry(now + ttl, ttl)]];
      history := history + [Renewed(account, fingerprint, now)];
    }

    /**
     The usage reported for a request.  It reads the deepest prefix above the floor that was stored
     for this account and is live, and renews it; `maxCacheable` stands for 85% of the input.
     */
    method Compute(account: string, profile: Profile, now: int, maxCacheable: nat) returns (usage: Usage)
      requires Valid() && now >= clock && maxCacheable <= profile.total
      modifies this
      ensures Valid()
      ensures account == "" || profile.breakpoints == [] ==>
                usage == NO_USAGE && history == old(history) && clock == old(clock)
      ensures account != "" && profile.breakpoints != [] ==>
                var hit := DeepestLive(old(history), account, profile, now, |profile.breakpoints|);
                && clock == now
                && history == old(history) +
                     (if hit.Some? then [Renewed(account, profile.breakpoints[hit.value].fingerprint, now)] else [])
                && Reported(usage, profile, maxCacheable, hit, AnyLive(old(history), account, now))
    {
      if |profile.breakpoints| == 0 || account == "" { return NO_USAGE; }
      hide Faithful, DeepestLive, Pruned, EntryAfter, LiveIn, AnyLive, Exact, Reported;
      PruneExpired(now);
      if account !in entries {
        NothingLive(history, account, profile, now);
        usage := UsageWithNothingLive(profile, maxCacheable);
        return;
      }
      var i := FindHit(entries[account], profile, history, account, now);
      if i >= 0 {
        Renew(account, profile.breakpoints[i].fingerprint, now);
      }
      usage := UsageForHit(profile, i, maxCacheable);
    }
  }

  /**
   What a request's usage says of its input, given the breakpoint it hits and whether the account has
   anything live.
   */
  predicate Reported(usage: Usage, profile: Profile, maxCacheable: nat, hit: Option<nat>, anyLive: bool)
    requires profile.breakpoints != []
    requires hit.Some? ==> hit.value < |profile.breakpoints|
  {
    var whole := Min(profile.breakpoints[|profile.breakpoints| - 1].tokens, profile.total);
    && usage.creation5m + usage.creation1h == usage.creation && usage.creation5m >= 0 && usage.creation1h >= 0
    && usage.creation1h == HourTokens(profile.breakpoints, usage.read, usage.read + usage.creation)
    && usage.read >= 0 && usage.read + usage.creation <= profile.total
    && (if anyLive then
          && usage.read == (if hit.Some? then Min(Min(profile.breakpoints[hit.value].tokens, profile.total),
                                                  Min(whole, maxCacheable)) else 0)
          && usage.read + usage.creation == Min(whole, maxCacheable)
        else usage.read == 0 && usage.creation == if whole < profile.minTokens then 0 else whole)
  }

  method UsageWithNothingLive(profile: Profile, maxCacheable: nat) returns (usage: Usage)
    requires profile.breakpoints != []
    ensures Reported(usage, profile, maxCacheable, None, false)
  {
    hide HourTokens;
    var lastTokens := Min(profile.breakpoints[|profile.breakpoints| - 1].tokens, profile.total);
    var effectiveCreation := if lastTokens < profile.minTokens then 0 else lastTokens;
    var cache5m, cache1h := TtlBreakdownLimited(profile, 0, effectiveCreation);
    usage := Usage(effectiveCreation, 0, cache5m, cache1h);
  }

  /** The usage of a request of an account that has something live; `i` is the breakpoint it hits, or -1. */
  method UsageForHit(profile: Profile, i: int, maxCacheable: nat) returns (usage: Usage)
    requires profile.breakpoints != [] && maxCacheable <= profile.total && -1 <= i < |profile.breakpoints|
    ensures Reported(usage, profile, maxCacheable, if i >= 0 then Some(i) else None, true)
  {
    hide HourTokens;
    var lastTokens := Min(profile.breakpoints[|profile.breakpoints| - 1].tokens, profile.total);
    if lastTokens > maxCacheable { lastTokens := maxCacheable; }
    var matchedTokens := 0;
    if i >= 0 {
      matchedTokens := Min(profile.breakpoints[i].tokens, profile.total);
      if matchedTokens > lastTokens { matchedTokens := lastTokens; }
    }
    var creation := Max(lastTokens - matchedTokens, 0);
    var cache5m, cache1h := TtlBreakdownLimited(profile, matchedTokens, creation);
    usage := Usage(creation, matchedTokens, cache5m, cache1h);
  }

  /** The search from the deepest breakpoint up. */
  method FindHit(held: map<string, Entry>, profile: Profile, ghost history: seq<Event>, account: string, now: int)
      returns (i: int)
    requires Exact(held, history, account, now)
    ensures -1 <= i < |profile.breakpoints|
    ensures DeepestLive(history, account, profile, now, |profile.breakpoints|) == if i >= 0 then Some(i) else None
    ensures i >= 0 ==> profile.breakpoints[i].fingerprint in held
    ensures held != map[] ==> AnyLive(history, account, now)
  {
    hide EntryAfter;
    assert forall f :: f in held ==> held[f].expiresAt > now;
    hide LiveIn;
    assert held != map[] ==> exists f :: f in held;
    i := |profile.breakpoints| - 1;
    while i >= 0
      invariant -1 <= i < |profile.breakpoints|
      invariant DeepestLive(history, account, profile, now, |profile.breakpoints|)
                  == DeepestLive(history, account, profile, now, i + 1)
    {
      var b := profile.breakpoints[i];
      if b.tokens >= profile.minTokens && b.fingerprint in held && !(held[b.fingerprint].expiresAt < now) {
        return;
      }
      i := i - 1;
    }
  }

  /** The loop of Update: each breakpoint above the floor is one event. */
  method StoreAll(entries: map<string, map<string, Entry>>, ghost history: seq<Event>, account: string,
                  profile: Profile, now: int)
      returns (stored: map<string, map<string, Entry>>)
    requires profile.breakpoints != [] && Faithful(entries, history, now)
    ensures Faithful(stored, history + StoreEvents(account, profile, now), now)
  {
    hide StoreEvents, EntryAfter, LiveIn;
    stored := entries;
    if account !in stored {
      stored := stored[account := map[]];
    }
    assert Faithful(stored, history, now);
    hide Faithful;
    var i := 0;
    StoreEventsStep(account, profile, now, 0);
    assert history + [] == history;
    while i < |profile.breakpoints|
      invariant 0 <= i <= |profile.breakpoints|
      invariant account in stored
      invariant Faithful(stored, history + StoreEventsUpTo(account, profile, now, i), now)
    {
      var b := profile.breakpoints[i];
      StoreEventsStep(account, profile, now, i);
      if b.tokens >= profile.minTokens {
        var e := Stored(account, b.fingerprint, now, b.ttl);
        StoreIsFaithful(stored, history + StoreEventsUpTo(account, profile, now, i), account, b.fingerprint, now,
                        b.ttl);
        ConcatAssociative(history, StoreEventsUpTo(account, profile, now, i), [e]);
        stored := stored[account := stored[account][b.fingerprint := Entry(now + b.ttl, b.ttl)]];
      } else {
        assert StoreEventsUpTo(account, profile, now, i + 1) == StoreEventsUpTo(account, profile, now, i);
      }
      i := i + 1;
    }
    assert profile.breakpoints[..|profile.breakpoints|] == profile.breakpoints;
  }

  lemma StoreIsFaithful(entries: map<string, map<string, Entry>>, history: seq<Event>, account: string,
                        fingerprint: string, now: int, ttl: nat)
    requires account in entries && Faithful(entries, history, now)
    ensures Faithful(entries[account := entries[account][fingerprint := Entry(now + ttl, ttl)]],
                     history + [Stored(account, fingerprint, now, ttl)], now)
  {
    EntryAfterEvent(history, Stored(account, fingerprint, now, ttl), account, fingerprint);
    PutIsFaithful(entries, history, account, fingerprint, now, Entry(now + ttl, ttl),
                  Stored(account, fingerprint, now, ttl));
  }

  lemma RenewalIsFaithful(entries: map<string, map<string, Entry>>, history: seq<Event>, account: string,
                          fingerprint: string, now: int)
    requires Faithful(entries, history, now)
    requires account in entries && fingerprint in entries[account]
    requires Exact(entries[account], history, account, now)
    ensures var ttl := entries[account][fingerprint].ttl;
            Faithful(entries[account := entries[account][fingerprint := Entry(now + ttl, ttl)]],
                     history + [Renewed(account, fingerprint, now)], now)
  {
    hide Faithful;
    var ttl := entries[account][fingerprint].ttl;
    EntryAfterEvent(history, Renewed(account, fingerprint, now), account, fingerprint);
    PutIsFaithful(entries, history, account, fingerprint, now, Entry(now + ttl, ttl),
                  Renewed(account, fingerprint, now));
  }

  lemma PutIsFaithful(entries: map<string, map<string, Entry>>, history: seq<Event>, account: string,
                      fingerprint: string, now: int, e: Entry, event: Event)
    requires account in entries && Faithful(entries, history, now)
    requires EntryAfter(history + [event], account, fingerprint) == Some(e)
    requires forall a, f :: a != account || f != fingerprint ==>
               EntryAfter(history + [event], a, f) == EntryAfter(history, a, f)
    ensures Faithful(entries[account := entries[account][fingerprint := e]], history + [event], now)
  {
    hide EntryAfter;
    var after, events := entries[account := entries[account][fingerprint := e]], history + [event];
    forall a, f
      ensures if Held(after, a, f) && after[a][f].expiresAt > now then EntryAfter(events, a, f) == Some(after[a][f])
                else !LiveIn(events, a, f, now)
    {
      assert Held(entries, a, f) ==> Held(after, a, f);
    }
  }

  lemma PruningIsExact(entries: map<string, map<string, Entry>>, history: seq<Event>, clock: int, now: int)
    requires Faithful(entries, history, clock) && clock <= now
    ensures var pruned := Pruned(entries, now);
            && Faithful(pruned, history, now)
            && (forall a :: Exact(if a in pruned then pruned[a] else map[], history, a, now))
            && (forall a :: a in pruned ==> pruned[a] != map[])
  {
    hide EntryAfter, Pruned;
    var pruned := Pruned(entries, now);
    forall a, f
      ensures Held(pruned, a, f) <==> LiveIn(history, a, f, now)
      ensures Held(pruned, a, f) ==> EntryAfter(history, a, f) == Some(pruned[a][f]) && pruned[a][f].expiresAt > now
    {
      PrunedMeaning(entries, now, a, f);
      assert Held(entries, a, f) && entries[a][f].expiresAt > now ==> Held(pruned, a, f);
      assert LiveIn(history, a, f, now) ==> LiveIn(history, a, f, clock);
    }
    forall a ensures a in pruned ==> pruned[a] != map[] { PrunedMeaning(entries, now, a, ""); }
    forall a ensures Exact(if a in pruned then pruned[a] else map[], history, a, now) {
      var held := if a in pruned then pruned[a] else map[];
      assert forall f :: f in held <==> Held(pruned, a, f);
    }
  }

  /** The events of the first `i` breakpoints. */
  function StoreEventsUpTo(account: string, profile: Profile, now: int, i: nat): seq<Event>
    requires i <= |profile.breakpoints|
  {
    StoreEvents(account, profile.(breakpoints := profile.breakpoints[..i]), now)
  }

  lemma StoreEventsStep(account: string, profile: Profile, now: int, i: nat)
    requires i < |profile.breakpoints|
    ensures StoreEventsUpTo(account, profile, now, 0) == []
    ensures var b := profile.breakpoints[i];
            StoreEventsUpTo(account, profile, now, i + 1) ==
            StoreEventsUpTo(account, profile, now, i) +
                (if b.tokens < profile.minTokens then [] else [Stored(account, b.fingerprint, now, b.ttl)])
  {
    var bs, minTokens := profile.breakpoints, profile.minTokens;
    assert bs[..i + 1] == bs[..i] + [bs[i]];
    CollectConcat(bs[..i], [bs[i]], (b: Breakpoint) => if b.tokens < minTokens then []
                  else [Stored(account, b.fingerprint, now, b.ttl)]);
    CollectOne(bs[i], (b: Breakpoint) => if b.tokens < minTokens then []
               else [Stored(account, b.fingerprint, now, b.ttl)]);
  }

  lemma EntryAfterEvent(history: seq<Event>, event: Event, account: string, fingerprint: string)
    requires event.account == account && event.fingerprint == fingerprint
    ensures var before, after := EntryAfter(history, account, fingerprint),
              EntryAfter(history + [event], account, fingerprint);
            match event
            case Stored(_, _, at, ttl) => after == Some(Entry(at + ttl, ttl))
            case Renewed(_, _, at) => before.Some? ==> after == Some(Entry(at + before.value.ttl, before.value.ttl))
    ensures forall a, f :: a != account || f != fingerprint ==>
              EntryAfter(history + [event], a, f) == EntryAfter(history, a, f)
  {
    assert (history + [event])[..|history|] == history;
  }

  lemma {:induction false} NothingLive(history: seq<Event>, account: string, profile: Profile, now: int)
    requires Exact(map[], history, account, now)
    ensures DeepestLive(history, account, profile, now, |profile.breakpoints|) == None
              && !AnyLive(history, account, now)
  {
  }

  function LiveOnly(m: map<string, Entry>, now: int): map<string, Entry> {
    map f | f in m && m[f].expiresAt > now :: m[f]
  }

  function Pruned(entries: map<string, map<string, Entry>>, now: int): map<string, map<string, Entry>> {
    map a | a in entries && LiveOnly(entries[a], now) != map[] :: LiveOnly(entries[a], now)
  }

  lemma PrunedMeaning(entries: map<string, map<string, Entry>>, now: int, account: string, f: string)
    ensures var held := account in entries && f in entries[account] && entries[account][f].expiresAt > now;
            && ((account in Pruned(entries, now) && f in Pruned(entries, now)[account]) <==> held)
            && (held ==> Pruned(entries, now)[account][f] == entries[account][f])
    ensures account in Pruned(entries, now) ==> Pruned(entries, now)[account] != map[]
  {
    if account in entries && f in entries[account] && entries[account][f].expiresAt > now {
      assert f in LiveOnly(entries[account], now);
    }
  }

  method PruneAll(entries: map<string, map<string, Entry>>, now: int) returns (pruned: map<string, map<string, Entry>>)
    ensures pruned == Pruned(entries, now)
  {
    hide LiveOnly;
    pruned := entries;
    var accounts := entries.Keys;
    while accounts != {}
      invariant accounts <= entries.Keys
      invariant forall a :: a in accounts ==> a in pruned && pruned[a] == entries[a]
      invariant forall a :: a in pruned ==>
                  a in accounts || (a in entries && LiveOnly(entries[a], now) != map[]
                                    && pruned[a] == LiveOnly(entries[a], now))
      invariant forall a :: a in entries && a !in accounts && LiveOnly(entries[a], now) != map[] ==> a in pruned
      decreases accounts
    {
      var account :| account in accounts;
      var live := LiveOnly(pruned[account], now);
      pruned := if live == map[] then pruned - {account} else pruned[account := live];
      accounts := accounts - {account};
    }
  }

  // ---------------------------------------------------------------- whole runs

  datatype Kind = Sending | Succeeded

  /** One use of the tracker: the usage of a request about to be sent, or storing the prefixes of one that succeeded. */
  datatype Api = Claude | OpenAI

  datatype Op = Op(kind: Kind, api: Api, account: string, blocks: seq<Block>, total: nat, minTokens: nat, now: int) {
    function AsProfile(): Profile {
      Profile(if api.Claude? then Breakpoints(blocks)
              else StableBreakpoints(blocks, minTokens, total), total, minTokens)
    }
  }

  /**
   The breakpoint of either API's profile stands for a prefix, never counting for more tokens than that
   prefix has.
   */
  lemma ProfileBreakpointIsPrefix(op: Op, k: nat) returns (n: nat)
    requires k < |op.AsProfile().breakpoints|
    ensures 0 < n <= |op.blocks| && op.AsProfile().breakpoints[k].fingerprint == EncodeBlocks(Texts(op.blocks[..n]))
    ensures op.AsProfile().breakpoints[k].tokens <= Tokens(op.blocks[..n])
  {
    hide EncodeBlocks, Texts, Breakpoints, StableBreakpoints;
    if op.api.Claude? {
      n := BreakpointIsPrefix(op.blocks, k);
    } else {
      n := StableBreakpointIsPrefix(op.blocks, op.minTokens, op.total, k);
    }
  }

  function HistoryAfter(ops: seq<Op>): seq<Event> {
    if ops == [] then []
    else
      var op, before := ops[|ops| - 1], HistoryAfter(ops[..|ops| - 1]);
      var profile := op.AsProfile();
      if op.account == "" || profile.breakpoints == [] then before
      else if op.kind == Succeeded then before + StoreEvents(op.account, profile, op.now)
      else
        match DeepestLive(before, op.account, profile, op.now, |profile.breakpoints|)
        case Some(i) => before + [Renewed(op.account, profile.breakpoints[i].fingerprint, op.now)]
        case None => before
  }

  /** Whatever is stored in a run is a prefix of a request of the same account that succeeded. */
  lemma {:induction false} StoredIsPrefix(ops: seq<Op>, k: nat) returns (j: nat, m: nat)
    requires k < |HistoryAfter(ops)| && HistoryAfter(ops)[k].Stored?
    ensures j < |ops| && ops[j].kind == Succeeded && ops[j].account == HistoryAfter(ops)[k].account
    ensures 0 < m <= |ops[j].blocks| && HistoryAfter(ops)[k].fingerprint == EncodeBlocks(Texts(ops[j].blocks[..m]))
    ensures Tokens(ops[j].blocks[..m]) >= ops[j].minTokens && HistoryAfter(ops)[k].at == ops[j].now
  {
    hide EncodeBlocks, DeepestLive, StoreEvents, Breakpoints, StableBreakpoints;
    var init := ops[..|ops| - 1];
    if k < |HistoryAfter(init)| {
      j, m := StoredIsPrefix(init, k);
    } else {
      j := |ops| - 1;
      var op := ops[j];
      assert op.kind == Succeeded;
      var b := StoreEventIs(op.account, op.AsProfile(), op.now, k - |HistoryAfter(init)|);
      m := ProfileBreakpointIsPrefix(op, b);
    }
  }

  lemma {:induction false} StoreEventIs(account: string, profile: Profile, now: int, k: nat) returns (i: nat)
    requires k < |StoreEvents(account, profile, now)|
    ensures i < |profile.breakpoints| && profile.breakpoints[i].tokens >= profile.minTokens
    ensures var b := profile.breakpoints[i];
            StoreEvents(account, profile, now)[k] == Stored(account, b.fingerprint, now, b.ttl)
    decreases |profile.breakpoints|
  {
    var n := |profile.breakpoints| - 1;
    hide StoreEvents;
    StoreEventsAll(account, profile, now);
    StoreEventsStep(account, profile, now, n);
    var init := profile.(breakpoints := profile.breakpoints[..n]);
    if k < |StoreEventsUpTo(account, profile, now, n)| {
      i := StoreEventIs(account, init, now, k);
    } else {
      i := n;
    }
  }

  lemma StoreEventsAll(account: string, profile: Profile, now: int)
    ensures StoreEventsUpTo(account, profile, now, |profile.breakpoints|) == StoreEvents(account, profile, now)
    ensures profile.breakpoints == [] ==> StoreEvents(account, profile, now) == []
  {
    assert profile.breakpoints[..|profile.breakpoints|] == profile.breakpoints;
  }

  /** A cache read is of blocks that an earlier, successful request of the same account began with, word for word. */
  lemma {:induction false} ReadsAreStoredPrefixes(ops: seq<Op>, op: Op, i: nat) returns (n: nat, j: nat, m: nat)
    requires i < |op.AsProfile().breakpoints|
    requires LiveIn(HistoryAfter(ops), op.account, op.AsProfile().breakpoints[i].fingerprint, op.now)
    ensures 0 < n <= |op.blocks| && op.AsProfile().breakpoints[i].tokens <= Tokens(op.blocks[..n])
    ensures j < |ops| && ops[j].kind == Succeeded && ops[j].account == op.account
    ensures 0 < m <= |ops[j].blocks| && Texts(ops[j].blocks[..m]) == Texts(op.blocks[..n])
  {
    hide EncodeBlocks, Breakpoints, StableBreakpoints, EntryAfter;
    n := ProfileBreakpointIsPrefix(op, i);
    var k := LiveMeansStored(HistoryAfter(ops), op.account, op.AsProfile().breakpoints[i].fingerprint);
    j, m := StoredIsPrefix(ops, k);
    FingerprintsIdentifyPrefixes(Texts(ops[j].blocks[..m]), Texts(op.blocks[..n]));
  }

  /** One operation on the tracker, by what it adds to the history. */
  method Perform(tracker: PromptCacheTracker, ghost ops: seq<Op>, op: Op, cap: nat) returns (usage: Usage)
    requires tracker.Valid() && tracker.history == HistoryAfter(ops) && op.now >= tracker.clock && cap <= op.total
    modifies tracker
    ensures tracker.Valid() && tracker.history == HistoryAfter(ops + [op]) && tracker.clock <= op.now
    ensures Answered(HistoryAfter(ops), op, cap, usage)
  {
    hide Faithful, DeepestLive, StoreEvents, Breakpoints, StableBreakpoints, Reported, AnyLive;
    assert (ops + [op])[..|ops|] == ops;
    var profile := op.AsProfile();
    usage := NO_USAGE;
    if op.kind == Succeeded {
      tracker.Update(op.account, profile, op.now);
    } else {
      usage := tracker.Compute(op.account, profile, op.now, cap);
    }
  }

  /** The answer to an operation: the usage of the deepest live prefix, given all that was stored and renewed before. */
  ghost predicate Answered(before: seq<Event>, op: Op, cap: nat, usage: Usage) {
    var profile := op.AsProfile();
    if op.kind == Succeeded || op.account == "" || profile.breakpoints == [] then usage == NO_USAGE
    else
      var hit := DeepestLive(before, op.account, profile, op.now, |profile.breakpoints|);
      Reported(usage, profile, cap, hit, AnyLive(before, op.account, op.now))
  }

  lemma NoHistory()
    ensures HistoryAfter([]) == []
  {
  }

  /** Runs the operations on one tracker, its clock never going back; `caps` are the 85% limits. */
  method RunTracker(ops: seq<Op>, caps: seq<nat>) returns (usages: seq<Usage>)
    requires |caps| == |ops| && forall i :: 0 <= i < |ops| ==> caps[i] <= ops[i].total
    requires forall i :: 0 < i < |ops| ==> ops[i - 1].now <= ops[i].now
    ensures |usages| == |ops|
    ensures forall i :: 0 <= i < |ops| ==> Answered(HistoryAfter(ops[..i]), ops[i], caps[i], usages[i])
  {
    hide Faithful, Answered, HistoryAfter;
    usages := [];
    if |ops| == 0 { return; }
    NoHistory();
    var tracker := new PromptCacheTracker(ops[0].now);
    var i := 0;
    while i < |ops|
      invariant 0 <= i <= |ops| && fresh(tracker)
      invariant tracker.Valid() && (i < |ops| ==> tracker.clock <= ops[i].now)
      invariant tracker.history == HistoryAfter(ops[..i])
      invariant |usages| == i
      invariant forall j :: 0 <= j < i ==> Answered(HistoryAfter(ops[..j]), ops[j], caps[j], usages[j])
    {
      assert ops[..i] + [ops[i]] == ops[..i + 1];
      var usage := Perform(tracker, ops[..i], ops[i], caps[i]);
      assert i + 1 < |ops| ==> ops[i].now <= ops[i + 1].now;
      usages := usages + [usage];
      i := i + 1;
    }
  }
}
