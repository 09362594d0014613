/**
 The inline text buffers of the streaming handlers (proxy/handler.go, `processClaudeText` and
 `processText`, which are the same state machine around two senders).

 They split `<thinking>` blocks out of the answer as the splitter does, but hold back a fixed
 margin of 15 characters instead of the partial tag, choose between two reasoning sources, and
 announce each piece with a phase so the sender can bracket it.
 */
module InlineSplit {
  import opened Text
  import opened ThinkingSplit
  import opened InlineReading

  datatype Source = UnknownSource | ReasoningEvents | TagBlocks

  /** The `thinkingState` argument of sendText and sendChunk: 0, 1, 2, 3. */
  datatype Phase = AnswerText | ThinkingStart | ThinkingMore | ThinkingEnd

  datatype Call = Call(text: string, phase: Phase)

  // ---------------------------------------------------------------- reading a list of calls

  function AnswerCalls(calls: seq<Call>): string {
    Collect(calls, (c: Call) => if c.phase == AnswerText then c.text else "")
  }

  function ThinkingCalls(calls: seq<Call>): string {
    Collect(calls, (c: Call) => if c.phase == AnswerText then "" else c.text)
  }

  /** Whether a thinking bracket is open; Misplaced once a call came out of turn. */
  datatype Bracket = Misplaced | Closed | Opened

  function BracketStep(b: Bracket, phase: Phase): Bracket {
    match (b, phase)
    case (Closed, AnswerText) => Closed
    case (Closed, ThinkingStart) => Opened
    case (Opened, ThinkingMore) => Opened
    case (Opened, ThinkingEnd) => Closed
    case _ => Misplaced
  }

  function BracketAfter(calls: seq<Call>, start: Bracket): Bracket {
    if calls == [] then start else BracketAfter(calls[1..], BracketStep(start, calls[0].phase))
  }

  lemma {:induction false} BracketAfterConcat(a: seq<Call>, b: seq<Call>, start: Bracket)
    ensures BracketAfter(a + b, start) == BracketAfter(b, BracketAfter(a, start))
  {
    if a == [] {
      assert a + b == b;
    } else {
      hide BracketStep;
      BracketAfterConcat(a[1..], b, BracketStep(start, a[0].phase));
      assert (a + b)[1..] == a[1..] + b;
    }
  }

  lemma CallsConcat(a: seq<Call>, b: seq<Call>, start: Bracket)
    ensures AnswerCalls(a + b) == AnswerCalls(a) + AnswerCalls(b)
    ensures ThinkingCalls(a + b) == ThinkingCalls(a) + ThinkingCalls(b)
    ensures BracketAfter(a + b, start) == BracketAfter(b, BracketAfter(a, start))
  {
    CollectConcat(a, b, (c: Call) => if c.phase == AnswerText then c.text else "");
    CollectConcat(a, b, (c: Call) => if c.phase == AnswerText then "" else c.text);
    BracketAfterConcat(a, b, start);
  }

  lemma OneCall(c: Call, start: Bracket)
    ensures AnswerCalls([c]) == if c.phase == AnswerText then c.text else ""
    ensures ThinkingCalls([c]) == if c.phase == AnswerText then "" else c.text
    ensures BracketAfter([c], start) == BracketStep(start, c.phase)
  {
    CollectOne(c, (c: Call) => if c.phase == AnswerText then c.text else "");
    CollectOne(c, (c: Call) => if c.phase == AnswerText then "" else c.text);
  }

  // ---------------------------------------------------------------- what is said, in order

  /** A character that is said, and the places where a stretch of reasoning begins and ends. */
  datatype Token = Char(mark: Mark) | Begin | End

  function Tokens(text: string, thinking: bool): (tokens: seq<Token>)
    ensures |tokens| == |text|
    ensures forall i :: 0 <= i < |text| ==> tokens[i] == Char(Mark(text[i], thinking))
  {
    seq(|text|, i requires 0 <= i < |text| => Char(Mark(text[i], thinking)))
  }

  /** All the calls say. */
  function TokensBy(calls: seq<Call>): seq<Token> {
    Collect(calls, TokensOf)
  }

  function TokensOf(c: Call): seq<Token> {
    (if c.phase == ThinkingStart then [Begin] else [])
    + Tokens(c.text, c.phase != AnswerText)
    + (if c.phase == ThinkingEnd then [End] else [])
  }

  lemma TokensConcat(a: seq<Call>, b: seq<Call>)
    ensures TokensBy(a + b) == TokensBy(a) + TokensBy(b)
  {
    CollectConcat(a, b, TokensOf);
  }

  lemma TokensOnce(c: Call)
    ensures TokensBy([c]) == TokensOf(c) && TokensBy([]) == []
    ensures TokensBy([c, Call("", ThinkingEnd)]) == TokensOf(c) + [End]
  {
    CollectOne(c, TokensOf);
    CollectOne(Call("", ThinkingEnd), TokensOf);
    assert [c, Call("", ThinkingEnd)] == [c] + [Call("", ThinkingEnd)];
    TokensConcat([c], [Call("", ThinkingEnd)]);
  }

  /** Whether a stretch of reasoning is open, and whether a block or the events began it. */
  datatype Stretch = Shut | ByBlock | ByEvents

  /** Where reasoning comes from, and the stretch that is open. */
  datatype Stage = Stage(source: Source, open: Stretch)

  /**
   What is shown of something read: reasoning of blocks unless the events were first, and the other way
   round.  A block's stretch begins with its first text, or when it closes without any; an event's lasts
   until text goes on.
   */
  function Keep(r: Raw, st: Stage, thinking: bool): seq<Token> {
    match r
    case Resume => if st.open == ByEvents then [End] else []
    case Piece(text, inBlock) =>
      if !inBlock then Tokens(text, false)
      else if st.source == ReasoningEvents || text == "" then []
      else (if st.open == Shut then [Begin] else []) + Tokens(text, true)
    case Opening => []
    case Closing => if st.source == ReasoningEvents then [] else if st.open == Shut then [Begin, End] else [End]
    case Ending => if st.source != ReasoningEvents && st.open == ByBlock then [End] else []
    case Native(text) =>
      if !thinking || st.source == TagBlocks then []
      else (if st.open == Shut then [Begin] else []) + Tokens(text, true)
  }

  /** The first block opened, or the first event shown, decides where reasoning comes from. */
  function Step(r: Raw, st: Stage, thinking: bool): Stage {
    match r
    case Resume => Stage(st.source, if st.open == ByEvents then Shut else st.open)
    case Piece(text, inBlock) =>
      if inBlock && st.source != ReasoningEvents && text != "" then Stage(st.source, ByBlock) else st
    case Opening => Stage(if st.source == ReasoningEvents then ReasoningEvents else TagBlocks, Shut)
    case Closing => Stage(st.source, Shut)
    case Ending => Stage(st.source, Shut)
    case Native(_) => if thinking && st.source != TagBlocks then Stage(ReasoningEvents, ByEvents) else st
  }

  function Keeps(raw: seq<Raw>, st: Stage, thinking: bool): seq<Token> {
    if raw == [] then []
    else Keep(raw[0], st, thinking) + Keeps(raw[1..], Step(raw[0], st, thinking), thinking)
  }

  function StageAfter(raw: seq<Raw>, st: Stage, thinking: bool): Stage {
    if raw == [] then st else StageAfter(raw[1..], Step(raw[0], st, thinking), thinking)
  }

  lemma {:induction false} KeepsConcat(a: seq<Raw>, b: seq<Raw>, st: Stage, thinking: bool)
    ensures Keeps(a + b, st, thinking) == Keeps(a, st, thinking) + Keeps(b, StageAfter(a, st, thinking), thinking)
    ensures StageAfter(a + b, st, thinking) == StageAfter(b, StageAfter(a, st, thinking), thinking)
  {
    if a == [] {
      assert a + b == b;
    } else {
      hide Keep, Step;
      assert (a + b)[0] == a[0] && (a + b)[1..] == a[1..] + b;
      var next := Step(a[0], st, thinking);
      KeepsConcat(a[1..], b, next, thinking);
      ConcatAssociative(Keep(a[0], st, thinking), Keeps(a[1..], next, thinking),
                        Keeps(b, StageAfter(a[1..], next, thinking), thinking));
    }
  }

  lemma KeepsOne(r: Raw, st: Stage, thinking: bool)
    ensures Keeps([r], st, thinking) == Keep(r, st, thinking)
    ensures StageAfter([r], st, thinking) == Step(r, st, thinking)
    ensures Keeps([], st, thinking) == [] && StageAfter([], st, thinking) == st
  {
    hide Keep, Step;
    assert [r][1..] == [];
  }

  lemma KeepsTwo(r: Raw, next: Raw, st: Stage, thinking: bool)
    ensures Keeps([r, next], st, thinking) == Keep(r, st, thinking) + Keep(next, Step(r, st, thinking), thinking)
    ensures StageAfter([r, next], st, thinking) == Step(next, Step(r, st, thinking), thinking)
  {
    hide Keep, Step, Keeps, StageAfter;
    assert [r, next] == [r] + [next];
    KeepsOne(r, st, thinking);
    KeepsOne(next, Step(r, st, thinking), thinking);
    KeepsConcat([r], [next], st, thinking);
  }

  // ---------------------------------------------------------------- reading and saying

  /** All that is read of a text, the going on included. */
  function RawOf(fed: string, from: bool, force: bool): seq<Raw> {
    [Resume] + Reads(fed, from, force).raw
  }

  /**
   Part of `fed` has been read: the calls say what is shown of it, and the buffer means the rest.
   `was` is the stage before, `force` whether this is a flush.
   */
  ghost predicate ReadsOn(force: bool, thinking: bool, fed: string, from: bool, was: Stage, calls: seq<Call>,
                          buffer: string, block: bool, st: Stage) {
    var whole, left := Reads(fed, from, force), Reads(buffer, block, force);
    && Keeps(RawOf(fed, from, force), was, thinking) == TokensBy(calls) + Keeps(left.raw, st, thinking)
    && StageAfter(RawOf(fed, from, force), was, thinking) == StageAfter(left.raw, st, thinking)
    && whole.rest == left.rest && whole.block == left.block
  }

  /** All of it has been read: the buffer is what is to be held. */
  ghost predicate HasRead(force: bool, thinking: bool, fed: string, from: bool, was: Stage, calls: seq<Call>,
                          buffer: string, block: bool, st: Stage) {
    && TokensBy(calls) == Keeps(RawOf(fed, from, force), was, thinking)
    && st == StageAfter(RawOf(fed, from, force), was, thinking)
    && buffer == Reads(fed, from, force).rest && block == Reads(fed, from, force).block
  }

  lemma ReadsFromStart(force: bool, thinking: bool, fed: string, from: bool, was: Stage, calls: seq<Call>)
    requires calls == if was.open == ByEvents then [Call("", ThinkingEnd)] else []
    ensures ReadsOn(force, thinking, fed, from, was, calls, fed, from, Step(Resume, was, thinking))
  {
    TokensOnce(Call("", ThinkingEnd));
    assert TokensBy(calls) == Keep(Resume, was, thinking);
    hide Reads, Keeps, StageAfter, Keep, Step, TokensBy;
    KeepsOne(Resume, was, thinking);
    KeepsConcat([Resume], Reads(fed, from, force).raw, was, thinking);
  }

  /** Something more of it is read and said. */
  lemma ReadsThrough(force: bool, thinking: bool, fed: string, from: bool, was: Stage, calls: seq<Call>,
                     buffer: string, block: bool, st: Stage, taken: seq<Raw>, more: seq<Call>, rest: string,
                     restBlock: bool)
    requires ReadsOn(force, thinking, fed, from, was, calls, buffer, block, st)
    requires var now, next := Reads(buffer, block, force), Reads(rest, restBlock, force);
             now == Reading(taken + next.raw, next.rest, next.block)
    requires TokensBy(more) == Keeps(taken, st, thinking)
    ensures ReadsOn(force, thinking, fed, from, was, calls + more, rest, restBlock, StageAfter(taken, st, thinking))
  {
    hide Reads, Keeps, StageAfter, TokensBy, RawOf;
    var next, after := Reads(rest, restBlock, force).raw, StageAfter(taken, st, thinking);
    KeepsConcat(taken, next, st, thinking);
    TokensConcat(calls, more);
    ConcatAssociative(TokensBy(calls), TokensBy(more), Keeps(next, after, thinking));
  }

  lemma ReadsThroughTag(force: bool, thinking: bool, fed: string, from: bool, was: Stage, calls: seq<Call>,
                        buffer: string, block: bool, st: Stage, at: int, more: seq<Call>)
    requires ReadsOn(force, thinking, fed, from, was, calls, buffer, block, st)
    requires at >= 0 && OccursAt(buffer, TagFor(block), at)
    requires forall j :: j < at ==> !OccursAt(buffer, TagFor(block), j)
    requires TokensBy(more) == Keeps([Piece(buffer[..at], block), Marker(block)], st, thinking)
    ensures at + |TagFor(block)| <= |buffer|
    ensures ReadsOn(force, thinking, fed, from, was, calls + more, buffer[at + |TagFor(block)|..], !block,
                    StageAfter([Piece(buffer[..at], block), Marker(block)], st, thinking))
  {
    hide *;
    ReadsTag(buffer, block, force, at);
    ReadsThrough(force, thinking, fed, from, was, calls, buffer, block, st,
                 [Piece(buffer[..at], block), Marker(block)], more, buffer[at + |TagFor(block)|..], !block);
  }

  /** What the tag looked for does. */
  function Marker(block: bool): Raw {
    if block then Closing else Opening
  }

  lemma ReadsTag(buffer: string, block: bool, force: bool, at: int)
    requires at >= 0 && OccursAt(buffer, TagFor(block), at)
    requires forall j :: j < at ==> !OccursAt(buffer, TagFor(block), j)
    ensures at + |TagFor(block)| <= |buffer|
    ensures var next := Reads(buffer[at + |TagFor(block)|..], !block, force);
            Reads(buffer, block, force)
            == Reading([Piece(buffer[..at], block), Marker(block)] + next.raw, next.rest, next.block)
  {
    FirstAtIs(buffer, TagFor(block), at);
    hide TagFor, FirstAt, OccursAt;
    var all := Reads(buffer, block, force);
    assert all.raw == [Piece(buffer[..at], block), Marker(block)]
                      + Reads(buffer[at + |TagFor(block)|..], !block, force).raw;
  }

  lemma ReadIsShort(force: bool, thinking: bool, fed: string, from: bool, was: Stage, calls: seq<Call>,
                    buffer: string, block: bool, st: Stage)
    requires HasRead(force, thinking, fed, from, was, calls, buffer, block, st)
    ensures |buffer| <= if force then 0 else Limit(block)
  {
    hide Reads, Keeps, StageAfter;
    HeldIsShort(fed, from, force);
  }

  /** How much is let go when no tag is left. */
  function LetGo(force: bool, n: nat, block: bool): (k: nat)
    ensures k <= n
  {
    if force then n else SafeLength(n, block)
  }

  /** The last that is read of a text: a piece, and in a flush the end of the block. */
  function LastOf(force: bool, buffer: string, block: bool): seq<Raw> {
    [Piece(buffer[..LetGo(force, |buffer|, block)], block)] + (if block && force then [Ending] else [])
  }

  lemma ReadsToEnd(force: bool, thinking: bool, fed: string, from: bool, was: Stage, calls: seq<Call>,
                   buffer: string, block: bool, st: Stage, more: seq<Call>)
    requires ReadsOn(force, thinking, fed, from, was, calls, buffer, block, st)
    requires forall j :: !OccursAt(buffer, TagFor(block), j)
    requires TokensBy(more) == Keeps(LastOf(force, buffer, block), st, thinking)
    ensures HasRead(force, thinking, fed, from, was, calls + more, buffer[LetGo(force, |buffer|, block)..],
                    block && !force, StageAfter(LastOf(force, buffer, block), st, thinking))
  {
    FirstAtIs(buffer, TagFor(block), -1);
    assert buffer[..|buffer|] == buffer;
    assert Reads(buffer, block, force)
        == Reading(LastOf(force, buffer, block), buffer[LetGo(force, |buffer|, block)..], block && !force);
    hide Reads, Keeps, StageAfter, TokensBy, TagFor, LastOf, RawOf;
    TokensConcat(calls, more);
  }

  // ---------------------------------------------------------------- the buffer

  /** Reasoning events have the floor unless tag blocks took it first. */
  method AllowReasoningSource(source: Source) returns (allowed: bool, source': Source)
    ensures allowed == (source != TagBlocks)
    ensures source' == if allowed then ReasoningEvents else TagBlocks
  {
    if source == TagBlocks { return false, source; }
    return true, ReasoningEvents;
  }

  method AllowTagSource(source: Source) returns (allowed: bool, source': Source)
    ensures allowed == (source != ReasoningEvents)
    ensures source' == if allowed then TagBlocks else ReasoningEvents
  {
    if source == ReasoningEvents { return false, source; }
    source' := if source == UnknownSource then TagBlocks else source;
    allowed := source' == TagBlocks;
  }

  /** What one call of the buffer is about: a flush or not, the text read and how it was read from the start. */
  datatype Task = Task(force: bool, fed: string, block: bool, was: Stage, start: Bracket)

  /** A source once decided stays, and text never makes it that of the events. */
  predicate SourceKept(was: Source, source: Source) {
    (was != UnknownSource ==> source == was) && (source == ReasoningEvents ==> was == ReasoningEvents)
  }

  class InlineSplitter {
    const thinking: bool
    var textBuffer: string
    var inThinkingBlock: bool
    var dropTagThinking: bool
    var thinkingSource: Source
    var thinkingStarted: bool
    var eventThinkingOpen: bool

    ghost predicate Valid()
      reads this
    {
      && (inThinkingBlock ==> thinkingSource != UnknownSource && dropTagThinking == (thinkingSource == ReasoningEvents))
      && (!inThinkingBlock ==> !dropTagThinking)
      && (eventThinkingOpen ==> thinkingStarted && thinkingSource == ReasoningEvents)
      && (thinkingStarted && !eventThinkingOpen ==> inThinkingBlock && !dropTagThinking && textBuffer != "")
      && (thinkingSource == ReasoningEvents ==> thinking)
    }

    /** The bracket a client of the calls made so far would see open. */
    ghost function Open(): Bracket
      reads this
    {
      if thinkingStarted then Opened else Closed
    }

    ghost function At(): Stage
      reads this
    {
      Stage(thinkingSource, if eventThinkingOpen then ByEvents else if thinkingStarted then ByBlock else Shut)
    }

    constructor (thinking: bool)
      ensures Valid() && this.thinking == thinking
      ensures textBuffer == "" && !inThinkingBlock && thinkingSource == UnknownSource && Open() == Closed
      ensures At() == Stage(UnknownSource, Shut)
    {
      this.thinking := thinking;
      textBuffer, inThinkingBlock, dropTagThinking := "", false, false;
      thinkingSource, thinkingStarted, eventThinkingOpen := UnknownSource, false, false;
    }

    /** A reasoning event: shown whole, unless thinking is off or a tag block already claimed the reasoning. */
    method ProcessReasoning(text: string) returns (calls: seq<Call>)
      requires Valid()
      modifies this
      ensures Valid()
      ensures textBuffer == old(textBuffer) && inThinkingBlock == old(inThinkingBlock)
      ensures AnswerCalls(calls) == ""
      ensures ThinkingCalls(calls) == if thinking && old(thinkingSource) != TagBlocks then text else ""
      ensures thinkingSource == if thinking && old(thinkingSource) != TagBlocks then ReasoningEvents
                else old(thinkingSource)
      ensures BracketAfter(calls, old(Open())) == Open()
      ensures TokensBy(calls) == Keep(Native(text), old(At()), thinking)
      ensures At() == Step(Native(text), old(At()), thinking)
    {
      TokensOnce(Call(text, ThinkingStart));
      TokensOnce(Call(text, ThinkingMore));
      calls := [];
      if !thinking { return; }
      var allowed: bool;
      allowed, thinkingSource := AllowReasoningSource(thinkingSource);
      if !allowed { return; }
      if !thinkingStarted {
        calls := [Call(text, ThinkingStart)];
        thinkingStarted, eventThinkingOpen := true, true;
      } else {
        calls := [Call(text, ThinkingMore)];
      }
      OneCall(calls[0], old(Open()));
    }

    /**
     Answer text, or a forced flush of what is held (`forceFlush`).  Of the held text and the new
     text together, `done` is what has now been shown: all the reference split of it when forced,
     and otherwise a part that leaves the buffer meaning what the rest means.
     */
    method ProcessText(text: string, forceFlush: bool) returns (calls: seq<Call>, ghost done: seq<Mark>)
      requires Valid()
      modifies this
      ensures Valid() && !eventThinkingOpen
      ensures old(thinkingSource) != UnknownSource ==> thinkingSource == old(thinkingSource)
      ensures thinkingSource == ReasoningEvents ==> old(thinkingSource) == ReasoningEvents
      ensures Shows(calls, done, thinkingSource)
      ensures BracketAfter(calls, old(Open())) == Open()
      ensures forceFlush ==> done == Scan(old(textBuffer) + text, old(inThinkingBlock))
      ensures forceFlush ==> textBuffer == "" && !inThinkingBlock && Open() == Closed
      ensures !forceFlush ==> Conserved(old(textBuffer) + text, old(inThinkingBlock), done, textBuffer, inThinkingBlock)
      ensures HasRead(forceFlush, thinking, old(textBuffer) + text, old(inThinkingBlock), old(At()), calls,
                      textBuffer, inThinkingBlock, At())
      ensures |textBuffer| <= if forceFlush then 0 else Limit(inThinkingBlock)
    {
      hide Conserved, Shows, BracketAfter, BracketStep, TagFor, Scan, AnswerCalls, ThinkingCalls, ReadsOn, HasRead;
      ghost var fed, block, was, start, at := textBuffer + text, inThinkingBlock, thinkingSource, Open(), At();
      calls, done := [], [];
      ConservedAtStart(fed, block);
      NothingShown(was, start);
      TagLengths();
      if eventThinkingOpen {
        ShowsClosing(was);
        calls := [Call("", ThinkingEnd)];
        eventThinkingOpen, thinkingStarted := false, false;
      }
      ReadsFromStart(forceFlush, thinking, fed, block, at, calls);
      textBuffer := textBuffer + text;
      ghost var task := Task(forceFlush, fed, block, at, start);
      var again := true;
      while again
        invariant SourceKept(was, thinkingSource)
        invariant if again then Going(task, done, calls) else Stopped(task, done, calls)
        decreases again, |textBuffer|
      {
        if !inThinkingBlock {
          calls, done, again := StepOutside(forceFlush, calls, task, done);
        } else {
          calls, done, again := StepInside(forceFlush, calls, task, done);
        }
      }
      ReadIsShort(forceFlush, thinking, fed, block, at, calls, textBuffer, inThinkingBlock, At());
    }

    /** Between two turns of the loop: `done` has been shown and the buffer means the rest of `fed`. */
    ghost predicate InProgress(fed: string, block: bool, done: seq<Mark>, calls: seq<Call>, start: Bracket)
      reads this
    {
      && Valid() && !eventThinkingOpen
      && Conserved(fed, block, done, textBuffer, inThinkingBlock)
      && Shows(calls, done, thinkingSource)
      && BracketAfter(calls, start) == Open()
    }

    ghost predicate Going(task: Task, done: seq<Mark>, calls: seq<Call>)
      reads this
    {
      && InProgress(task.fed, task.block, done, calls, task.start)
      && ReadsOn(task.force, thinking, task.fed, task.block, task.was, calls, textBuffer, inThinkingBlock,
                 At())
    }

    /** After the last turn: all that may be shown has been, and the buffer is what is to be held. */
    ghost predicate Stopped(task: Task, done: seq<Mark>, calls: seq<Call>)
      reads this
    {
      && Valid() && !eventThinkingOpen
      && Shows(calls, done, thinkingSource) && BracketAfter(calls, task.start) == Open()
      && (task.force ==> done == Scan(task.fed, task.block) && textBuffer == "" && !inThinkingBlock)
      && (!task.force ==> InProgress(task.fed, task.block, done, calls, task.start))
      && HasRead(task.force, thinking, task.fed, task.block, task.was, calls, textBuffer, inThinkingBlock,
                 At())
    }

    /** One turn of the loop outside a block; `again` is false where the source breaks out of it. */
    method StepOutside(forceFlush: bool, calls0: seq<Call>, ghost task: Task, ghost done0: seq<Mark>)
      returns (calls: seq<Call>, ghost done: seq<Mark>, again: bool)
      requires Going(task, done0, calls0) && forceFlush == task.force && !inThinkingBlock
      modifies this
      ensures SourceKept(old(thinkingSource), thinkingSource)
      ensures if again then Going(task, done, calls) && |textBuffer| < old(|textBuffer|)
              else Stopped(task, done, calls)
    {
      var thinkingStart := Index(textBuffer, TagFor(false));
      if thinkingStart != -1 {
        calls, done := EnterBlock(thinkingStart, calls0, task, done0);
        again := true;
      } else {
        calls, done := ReleaseAnswer(forceFlush, calls0, task, done0);
        again := false;
      }
    }

    /** An opening tag: what is before it is shown and the block claims the reasoning, or is dropped. */
    method EnterBlock(thinkingStart: int, calls0: seq<Call>, ghost task: Task, ghost done0: seq<Mark>)
      returns (calls: seq<Call>, ghost done: seq<Mark>)
      requires Going(task, done0, calls0) && !inThinkingBlock
      requires thinkingStart >= 0 && OccursAt(textBuffer, TagFor(false), thinkingStart)
      requires forall j :: j < thinkingStart ==> !OccursAt(textBuffer, TagFor(false), j)
      modifies this
      ensures SourceKept(old(thinkingSource), thinkingSource)
      ensures Going(task, done, calls) && |textBuffer| < old(|textBuffer|)
    {
      hide Conserved, Shows, BracketAfter, BracketStep, TagFor, Scan, AnswerCalls, ThinkingCalls, ReadsOn, HasRead,
        TokensBy, Keeps, StageAfter;
      TagLengths();
      calls, done := calls0, done0;
      ghost var buffer, source, st := textBuffer, thinkingSource, At();
      ghost var before := buffer[..thinkingStart];
      ghost var more := if thinkingStart > 0 then [Call(before, AnswerText)] else [];
      ConservedThroughTag(task.fed, task.block, done, buffer, false, thinkingStart);
      AnswerSaid(before, st, thinking, more);
      ReadsThroughTag(task.force, thinking, task.fed, task.block, task.was, calls, buffer, false, st,
                      thinkingStart, more);
      assert calls + [] == calls;
      ShowsAnswer(calls, done, before, thinkingSource, task.start);
      done := done + Marks(before, false);
      if thinkingStart > 0 {
        calls := calls + [Call(textBuffer[..thinkingStart], AnswerText)];
      }
      textBuffer := textBuffer[thinkingStart + 10..];
      inThinkingBlock := true;
      var allowed: bool;
      allowed, thinkingSource := AllowTagSource(thinkingSource);
      ShowsClaimed(calls, done, source, thinkingSource);
      dropTagThinking := !allowed;
      thinkingStarted := false;
    }

    /** No tag: all goes in a flush, and all but the margin once more than 50 characters are held. */
    method ReleaseAnswer(forceFlush: bool, calls0: seq<Call>, ghost task: Task, ghost done0: seq<Mark>)
      returns (calls: seq<Call>, ghost done: seq<Mark>)
      requires Going(task, done0, calls0) && forceFlush == task.force && !inThinkingBlock
      requires forall j :: !OccursAt(textBuffer, TagFor(false), j)
      modifies this
      ensures thinkingSource == old(thinkingSource) && Stopped(task, done, calls)
    {
      hide Conserved, Shows, BracketAfter, BracketStep, TagFor, Scan, AnswerCalls, ThinkingCalls, ReadsOn, HasRead,
        TokensBy, Keeps, StageAfter;
      TagLengths();
      calls, done := calls0, done0;
      ghost var buffer, source, st := textBuffer, thinkingSource, At();
      ghost var k := LetGo(forceFlush, |buffer|, false);
      ghost var more := if k > 0 then [Call(buffer[..k], AnswerText)] else [];
      AnswerSaid(buffer[..k], st, thinking, more);
      assert LastOf(forceFlush, buffer, false) == [Piece(buffer[..k], false)];
      ReadsToEnd(forceFlush, thinking, task.fed, task.block, task.was, calls, buffer, false, st, more);
      assert calls + [] == calls && buffer[0..] == buffer;
      if forceFlush || |textBuffer| > 50 {
        var safeLen := |textBuffer|;
        if !forceFlush { safeLen := Max(0, |textBuffer| - MARGIN); }
        if forceFlush {
          ConservedAtEnd(task.fed, task.block, done, buffer, false);
        } else {
          ConservedReleasing(task.fed, task.block, done, buffer, false, safeLen);
        }
        ShowsAnswer(calls, done, buffer[..safeLen], thinkingSource, task.start);
        done := done + Marks(buffer[..safeLen], false);
        if safeLen > 0 {
          calls := calls + [Call(textBuffer[..safeLen], AnswerText)];
          textBuffer := textBuffer[safeLen..];
        }
      }
    }

    /** One turn of the loop inside a block. */
    method StepInside(forceFlush: bool, calls0: seq<Call>, ghost task: Task, ghost done0: seq<Mark>)
      returns (calls: seq<Call>, ghost done: seq<Mark>, again: bool)
      requires Going(task, done0, calls0) && forceFlush == task.force && inThinkingBlock
      modifies this
      ensures SourceKept(old(thinkingSource), thinkingSource)
      ensures if again then Going(task, done, calls) && |textBuffer| < old(|textBuffer|)
              else Stopped(task, done, calls)
    {
      var thinkingEnd := Index(textBuffer, TagFor(true));
      if thinkingEnd != -1 {
        calls, done := LeaveBlock(thinkingEnd, calls0, task, done0);
        again := true;
      } else {
        again := false;
        if forceFlush {
          calls, done := EndBlock(calls0, task, done0);
        } else {
          calls, done := ReleaseThinking(calls0, task, done0);
        }
      }
    }

    /** A closing tag: what is before it ends the reasoning of the block. */
    method LeaveBlock(thinkingEnd: int, calls0: seq<Call>, ghost task: Task, ghost done0: seq<Mark>)
      returns (calls: seq<Call>, ghost done: seq<Mark>)
      requires Going(task, done0, calls0) && inThinkingBlock
      requires thinkingEnd >= 0 && OccursAt(textBuffer, TagFor(true), thinkingEnd)
      requires forall j :: j < thinkingEnd ==> !OccursAt(textBuffer, TagFor(true), j)
      modifies this
      ensures thinkingSource == old(thinkingSource)
      ensures Going(task, done, calls) && |textBuffer| < old(|textBuffer|)
    {
      hide Conserved, Shows, BracketAfter, BracketStep, TagFor, Scan, AnswerCalls, ThinkingCalls, ReadsOn, HasRead,
        TokensBy, Keeps, StageAfter;
      TagLengths();
      calls, done := calls0, done0;
      ghost var buffer, source, st := textBuffer, thinkingSource, At();
      var content := textBuffer[..thinkingEnd];
      ghost var more := if dropTagThinking then [] else EndCalls(content, st.open);
      ConservedThroughTag(task.fed, task.block, done, buffer, true, thinkingEnd);
      BlockClosed(content, st, thinking, more);
      ReadsThroughTag(task.force, thinking, task.fed, task.block, task.was, calls, buffer, true, st, thinkingEnd,
                      more);
      assert calls + [] == calls;
      ShowsThinking(calls, done, content, thinkingSource, task.start);
      done := done + Marks(content, true);
      if !dropTagThinking {
        if !thinkingStarted {
          calls := calls + [Call(content, ThinkingStart), Call("", ThinkingEnd)];
        } else {
          calls := calls + [Call(content, ThinkingEnd)];
        }
      }
      textBuffer := textBuffer[thinkingEnd + 11..];
      inThinkingBlock, dropTagThinking, thinkingStarted := false, false, false;
    }

    /** A flush in a block shows what is held as its end. */
    method EndBlock(calls0: seq<Call>, ghost task: Task, ghost done0: seq<Mark>)
      returns (calls: seq<Call>, ghost done: seq<Mark>)
      requires Going(task, done0, calls0) && task.force && inThinkingBlock
      requires forall j :: !OccursAt(textBuffer, TagFor(true), j)
      modifies this
      ensures thinkingSource == old(thinkingSource) && Stopped(task, done, calls)
    {
      hide Conserved, Shows, BracketAfter, BracketStep, TagFor, Scan, AnswerCalls, ThinkingCalls, ReadsOn, HasRead,
        TokensBy, Keeps, StageAfter;
      calls, done := calls0, done0;
      ghost var buffer, source, st := textBuffer, thinkingSource, At();
      ghost var more := if buffer == "" || dropTagThinking then [] else EndCalls(buffer, st.open);
      ConservedAtEnd(task.fed, task.block, done, buffer, true);
      BlockEnded(buffer, st, thinking, more);
      assert buffer[..|buffer|] == buffer && buffer[|buffer|..] == "" && calls + [] == calls;
      assert LastOf(true, buffer, true) == [Piece(buffer, true), Ending];
      ReadsToEnd(true, thinking, task.fed, task.block, task.was, calls, buffer, true, st, more);
      ShowsThinking(calls, done, buffer, thinkingSource, task.start);
      done := done + Marks(buffer, true);
      if textBuffer != "" {
        if !dropTagThinking {
          if !thinkingStarted {
            calls := calls + [Call(textBuffer, ThinkingStart), Call("", ThinkingEnd)];
          } else {
            calls := calls + [Call(textBuffer, ThinkingEnd)];
          }
        }
        textBuffer := "";
      }
      inThinkingBlock, dropTagThinking, thinkingStarted := false, false, false;
    }

    /** In a block all but the margin goes once more than 20 characters are held. */
    method ReleaseThinking(calls0: seq<Call>, ghost task: Task, ghost done0: seq<Mark>)
      returns (calls: seq<Call>, ghost done: seq<Mark>)
      requires Going(task, done0, calls0) && !task.force && inThinkingBlock
      requires forall j :: !OccursAt(textBuffer, TagFor(true), j)
      modifies this
      ensures thinkingSource == old(thinkingSource) && Stopped(task, done, calls)
    {
      hide Conserved, Shows, BracketAfter, BracketStep, TagFor, Scan, AnswerCalls, ThinkingCalls, ReadsOn, HasRead,
        TokensBy, Keeps, StageAfter;
      TagLengths();
      calls, done := calls0, done0;
      ghost var buffer, source, st := textBuffer, thinkingSource, At();
      ghost var k := LetGo(false, |buffer|, true);
      ghost var more :=
        if k == 0 || dropTagThinking then []
        else [Call(buffer[..k], if thinkingStarted then ThinkingMore else ThinkingStart)];
      BlockPart(buffer[..k], st, thinking, more);
      assert LastOf(false, buffer, true) == [Piece(buffer[..k], true)];
      ReadsToEnd(false, thinking, task.fed, task.block, task.was, calls, buffer, true, st, more);
      assert calls + [] == calls && buffer[0..] == buffer;
      if |textBuffer| > 20 {
        var safeLen := |textBuffer| - MARGIN;
        if safeLen > 0 {
          ConservedReleasing(task.fed, task.block, done, buffer, true, safeLen);
          ShowsThinking(calls, done, buffer[..safeLen], thinkingSource, task.start);
          done := done + Marks(buffer[..safeLen], true);
          if !dropTagThinking {
            if !thinkingStarted {
              calls := calls + [Call(textBuffer[..safeLen], ThinkingStart)];
              thinkingStarted := true;
            } else {
              calls := calls + [Call(textBuffer[..safeLen], ThinkingMore)];
            }
          }
          textBuffer := textBuffer[safeLen..];
        }
      }
    }
  }

  function Max(a: int, b: int): int {
    if a > b then a else b
  }

  // ---------------------------------------------------------------- the ways a piece of text is said

  lemma AnswerSaid(text: string, st: Stage, thinking: bool, more: seq<Call>)
    requires more == if text == "" then [] else [Call(text, AnswerText)]
    ensures TokensBy(more) == Keeps([Piece(text, false)], st, thinking)
    ensures TokensBy(more) == Keeps([Piece(text, false), Opening], st, thinking)
    ensures StageAfter([Piece(text, false)], st, thinking) == st
    ensures StageAfter([Piece(text, false), Opening], st, thinking) == Step(Opening, st, thinking)
  {
    KeepsOne(Piece(text, false), st, thinking);
    KeepsTwo(Piece(text, false), Opening, st, thinking);
    TokensOnce(Call(text, AnswerText));
    hide Keeps, StageAfter, TokensBy;
    assert Tokens(text, false) + [] == Tokens(text, false);
  }

  /** The calls for the last of a block whose stretch is open or not. */
  function EndCalls(text: string, open: Stretch): seq<Call> {
    if open == Shut then [Call(text, ThinkingStart), Call("", ThinkingEnd)] else [Call(text, ThinkingEnd)]
  }

  lemma EndTokens(text: string, open: Stretch)
    ensures TokensBy(EndCalls(text, open)) == (if open == Shut then [Begin] else []) + Tokens(text, true) + [End]
  {
    TokensOnce(Call(text, ThinkingStart));
    TokensOnce(Call(text, ThinkingEnd));
    hide TokensBy, Tokens;
    assert TokensOf(Call(text, ThinkingStart)) == [Begin] + Tokens(text, true) + [];
    assert TokensOf(Call(text, ThinkingEnd)) == [] + Tokens(text, true) + [End];
  }

  lemma BlockClosed(text: string, st: Stage, thinking: bool, more: seq<Call>)
    requires more == if st.source == ReasoningEvents then [] else EndCalls(text, st.open)
    ensures TokensBy(more) == Keeps([Piece(text, true), Closing], st, thinking)
    ensures StageAfter([Piece(text, true), Closing], st, thinking) == Stage(st.source, Shut)
  {
    KeepsTwo(Piece(text, true), Closing, st, thinking);
    EndTokens(text, st.open);
    TokensOnce(Call(text, ThinkingEnd));
    hide Keeps, StageAfter, TokensBy, EndCalls;
  }

  lemma BlockEnded(text: string, st: Stage, thinking: bool, more: seq<Call>)
    requires more == if text == "" || st.source == ReasoningEvents then [] else EndCalls(text, st.open)
    requires text == "" ==> st.open == Shut
    ensures TokensBy(more) == Keeps([Piece(text, true), Ending], st, thinking)
    ensures StageAfter([Piece(text, true), Ending], st, thinking) == Stage(st.source, Shut)
  {
    KeepsTwo(Piece(text, true), Ending, st, thinking);
    EndTokens(text, st.open);
    TokensOnce(Call(text, ThinkingEnd));
    hide Keeps, StageAfter, TokensBy, EndCalls;
  }

  lemma BlockPart(text: string, st: Stage, thinking: bool, more: seq<Call>)
    requires more == if text == "" || st.source == ReasoningEvents then []
                     else [Call(text, if st.open == Shut then ThinkingStart else ThinkingMore)]
    ensures TokensBy(more) == Keeps([Piece(text, true)], st, thinking)
    ensures StageAfter([Piece(text, true)], st, thinking) ==
              if text == "" || st.source == ReasoningEvents then st else Stage(st.source, ByBlock)
  {
    KeepsOne(Piece(text, true), st, thinking);
    TokensOnce(Call(text, if st.open == Shut then ThinkingStart else ThinkingMore));
    hide Keeps, StageAfter, TokensBy;
  }

  // ---------------------------------------------------------------- what the calls show

  /** The calls show exactly `done`, without its reasoning when reasoning events have the floor. */
  ghost predicate Shows(calls: seq<Call>, done: seq<Mark>, source: Source) {
    && AnswerCalls(calls) == Only(done, false)
    && ThinkingCalls(calls) == (if source == ReasoningEvents then "" else Only(done, true))
    && (source == UnknownSource ==> Only(done, true) == "")
  }

  lemma TagLengths()
    ensures |TagFor(false)| == 10 && |TagFor(true)| == 11
  {
  }

  lemma NothingShown(source: Source, start: Bracket)
    ensures Shows([], [], source) && BracketAfter([], start) == start
  {
  }

  /** Closing the bracket of the reasoning events shows no text. */
  lemma ShowsClosing(source: Source)
    ensures Shows([Call("", ThinkingEnd)], [], source)
    ensures BracketAfter([Call("", ThinkingEnd)], Opened) == Closed
  {
    OneCall(Call("", ThinkingEnd), Opened);
  }

  /** A tag block claiming the reasoning changes nothing about what was shown before it. */
  lemma ShowsClaimed(calls: seq<Call>, done: seq<Mark>, was: Source, source: Source)
    requires was == source || (was == UnknownSource && source == TagBlocks)
    requires Shows(calls, done, was) || Shows(calls, done, source)
    ensures Shows(calls, done, source)
  {
  }

  lemma ShowsAppend(calls: seq<Call>, done: seq<Mark>, more: seq<Call>, text: string, kind: bool, source: Source,
                    start: Bracket)
    requires Shows(calls, done, source)
    requires AnswerCalls(more) == if kind then "" else text
    requires ThinkingCalls(more) == if kind && source != ReasoningEvents then text else ""
    requires kind ==> source != UnknownSource
    ensures Shows(calls + more, done + Marks(text, kind), source)
    ensures BracketAfter(calls + more, start) == BracketAfter(more, BracketAfter(calls, start))
  {
    hide AnswerCalls, ThinkingCalls, BracketAfter, Only;
    CallsConcat(calls, more, start);
    OnlyConcat(done, Marks(text, kind), false);
    OnlyConcat(done, Marks(text, kind), true);
    OnlyMarks(text, kind, false);
    OnlyMarks(text, kind, true);
  }

  lemma ShowsAnswer(calls: seq<Call>, done: seq<Mark>, text: string, source: Source, start: Bracket)
    requires Shows(calls, done, source)
    ensures var next := if text == "" then calls else calls + [Call(text, AnswerText)];
            && Shows(next, done + Marks(text, false), source)
            && (BracketAfter(calls, start) == Closed ==> BracketAfter(next, start) == Closed)
  {
    hide AnswerCalls, ThinkingCalls, BracketAfter, Only, Shows;
    OneCall(Call(text, AnswerText), BracketAfter(calls, start));
    if text == "" {
      assert done + Marks(text, false) == done;
    } else {
      ShowsAppend(calls, done, [Call(text, AnswerText)], text, false, source, start);
    }
  }

  /** Every way a piece of reasoning is sent, or dropped. */
  lemma ShowsThinking(calls: seq<Call>, done: seq<Mark>, text: string, source: Source, start: Bracket)
    requires Shows(calls, done, source) && source != UnknownSource
    ensures source == ReasoningEvents ==> Shows(calls, done + Marks(text, true), source)
    ensures text == "" ==> Shows(calls, done + Marks(text, true), source)
    ensures source != ReasoningEvents && BracketAfter(calls, start) == Closed ==>
              && Shows(calls + [Call(text, ThinkingStart)], done + Marks(text, true), source)
              && BracketAfter(calls + [Call(text, ThinkingStart)], start) == Opened
              && Shows(calls + [Call(text, ThinkingStart), Call("", ThinkingEnd)], done + Marks(text, true), source)
              && BracketAfter(calls + [Call(text, ThinkingStart), Call("", ThinkingEnd)], start) == Closed
    ensures source != ReasoningEvents && BracketAfter(calls, start) == Opened ==>
              && Shows(calls + [Call(text, ThinkingMore)], done + Marks(text, true), source)
              && BracketAfter(calls + [Call(text, ThinkingMore)], start) == Opened
              && Shows(calls + [Call(text, ThinkingEnd)], done + Marks(text, true), source)
              && BracketAfter(calls + [Call(text, ThinkingEnd)], start) == Closed
  {
    hide AnswerCalls, ThinkingCalls, BracketAfter, Only, Shows;
    var at := BracketAfter(calls, start);
    if source == ReasoningEvents {
      ShowsDropped(calls, done, text, source);
    } else {
      if text == "" { assert done + Marks(text, true) == done; }
      forall phase | phase != AnswerText
        ensures Shows(calls + [Call(text, phase)], done + Marks(text, true), source)
        ensures BracketAfter(calls + [Call(text, phase)], start) == BracketStep(at, phase)
      {
        OneCall(Call(text, phase), at);
        ShowsAppend(calls, done, [Call(text, phase)], text, true, source, start);
      }
      var first := calls + [Call(text, ThinkingStart)];
      OneCall(Call("", ThinkingEnd), BracketAfter(first, start));
      ShowsAppend(first, done + Marks(text, true), [Call("", ThinkingEnd)], "", true, source, start);
      assert first + [Call("", ThinkingEnd)] == calls + [Call(text, ThinkingStart), Call("", ThinkingEnd)];
      assert done + Marks(text, true) + Marks("", true) == done + Marks(text, true);
    }
  }

  lemma ShowsDropped(calls: seq<Call>, done: seq<Mark>, text: string, source: Source)
    requires Shows(calls, done, source) && source == ReasoningEvents
    ensures Shows(calls, done + Marks(text, true), source)
  {
    hide AnswerCalls, ThinkingCalls, Only;
    OnlyConcat(done, Marks(text, true), false);
    OnlyMarks(text, true, false);
  }

  // ---------------------------------------------------------------- whole streams

  /** What the upstream callbacks deliver: OnText with either flag, or OnToolUse. */
  datatype Event = AnswerChunk(text: string) | ReasoningChunk(text: string) | ToolCall

  /** Text of one kind in the stream, each stretch between tool calls split as a whole. */
  function Expected(events: seq<Event>, sofar: string, thinking: bool): string
    decreases |events|
  {
    if events == [] then Only(Scan(sofar, false), thinking)
    else
      match events[0]
      case AnswerChunk(text) => Expected(events[1..], sofar + text, thinking)
      case ReasoningChunk(_) => Expected(events[1..], sofar, thinking)
      case ToolCall => Only(Scan(sofar, false), thinking) + Expected(events[1..], "", thinking)
  }

  /** All answer text of the stream, cut or not. */
  function WholeText(events: seq<Event>): string
    decreases |events|
  {
    if events == [] then "" else (if events[0].AnswerChunk? then events[0].text else "") + WholeText(events[1..])
  }

  /** Without tool calls the chunks do not matter: the stream is split as one text. */
  lemma {:induction false} ExpectedWithoutTools(events: seq<Event>, sofar: string, thinking: bool)
    requires forall i :: 0 <= i < |events| ==> !events[i].ToolCall?
    ensures Expected(events, sofar, thinking) == Only(Scan(sofar + WholeText(events), false), thinking)
    decreases |events|
  {
    hide Only, Scan;
    if events == [] {
      assert sofar + "" == sofar;
    } else {
      var text := if events[0].AnswerChunk? then events[0].text else "";
      ExpectedWithoutTools(events[1..], sofar + text, thinking);
      ConcatAssociative(sofar, text, WholeText(events[1..]));
      assert sofar + "" == sofar;
    }
  }

  function ReasoningPart(e: Event): string {
    if e.ReasoningChunk? then e.text else ""
  }

  function ReasoningText(events: seq<Event>): string {
    Collect(events, e => ReasoningPart(e))
  }

  lemma ReasoningTextSnoc(events: seq<Event>, i: nat)
    requires i < |events|
    ensures ReasoningText(events[..i + 1]) == ReasoningText(events[..i]) + ReasoningPart(events[i])
  {
    assert events[..i + 1] == events[..i] + [events[i]];
    CollectConcat(events[..i], [events[i]], e => ReasoningPart(e));
    CollectOne(events[i], e => ReasoningPart(e));
  }

  // ---------------------------------------------------------------- in the order it comes

  /** What a buffer holds between two events, and where reasoning comes from. */
  datatype Hold = Hold(text: string, block: bool, stage: Stage)

  const NOTHING_HELD := Hold("", false, Stage(UnknownSource, Shut))

  /** One event: what is read of it with what was held. */
  function ReadOf(h: Hold, event: Event): Reading {
    match event
    case AnswerChunk(text) =>
      if text == "" then Reading([], h.text, h.block) else Resumed(h.text + text, h.block, false)
    case ReasoningChunk(text) => Reading(if text == "" then [] else [Native(text)], h.text, h.block)
    case ToolCall => Resumed(h.text, h.block, true)
  }

  function Resumed(fed: string, from: bool, force: bool): Reading {
    Reads(fed, from, force).(raw := RawOf(fed, from, force))
  }

  function HoldAfter(events: seq<Event>, thinking: bool): Hold {
    if events == [] then NOTHING_HELD
    else
      var h := HoldAfter(events[..|events| - 1], thinking);
      var r := ReadOf(h, events[|events| - 1]);
      Hold(r.rest, r.block, StageAfter(r.raw, h.stage, thinking))
  }

  /** What an event makes the buffer say, after those before it. */
  function Brought(before: seq<Event>, event: Event, thinking: bool): seq<Token> {
    var h := HoldAfter(before, thinking);
    Keeps(ReadOf(h, event).raw, h.stage, thinking)
  }

  /** And what the flush at the end does. */
  function Rest(events: seq<Event>, thinking: bool): seq<Token> {
    Brought(events, ToolCall, thinking)
  }

  function FinalSource(events: seq<Event>, thinking: bool): Source {
    HoldAfter(events + [ToolCall], thinking).stage.source
  }

  /** Everything that is said of some events, in order: answer and reasoning each where it came. */
  function SaidAfter(events: seq<Event>, thinking: bool): seq<Token> {
    if events == [] then []
    else
      SaidAfter(events[..|events| - 1], thinking)
      + Brought(events[..|events| - 1], events[|events| - 1], thinking)
  }

  lemma HoldSnoc(events: seq<Event>, i: nat, thinking: bool)
    requires i < |events|
    ensures var h := HoldAfter(events[..i], thinking);
            var r := ReadOf(h, events[i]);
            && HoldAfter(events[..i + 1], thinking) == Hold(r.rest, r.block, StageAfter(r.raw, h.stage, thinking))
            && SaidAfter(events[..i + 1], thinking)
               == SaidAfter(events[..i], thinking) + Keeps(r.raw, h.stage, thinking)
  {
    hide ReadOf, StageAfter, Keeps;
    assert events[..i + 1][..i] == events[..i];
  }

  // ---------------------------------------------------------------- which source wins

  /** The answer text since the last tool call. */
  function SinceCall(events: seq<Event>): string {
    if events == [] then ""
    else
      match events[|events| - 1]
      case AnswerChunk(text) => SinceCall(events[..|events| - 1]) + text
      case ReasoningChunk(_) => SinceCall(events[..|events| - 1])
      case ToolCall => ""
  }

  ghost predicate Contains(s: string, tag: string) {
    exists j :: OccursAt(s, tag, j)
  }

  /** An opening tag was completed: some stretch of text between two calls contains one. */
  ghost predicate OpensBlock(events: seq<Event>) {
    exists n :: 0 <= n <= |events| && Contains(SinceCall(events[..n]), OPEN_TAG)
  }

  /** The i-th event is reasoning, and no opening tag was completed before it. */
  ghost predicate ReasoningFirst(events: seq<Event>, i: nat)
    requires i < |events|
  {
    events[i].ReasoningChunk? && events[i].text != "" && !OpensBlock(events[..i])
  }

  ghost predicate ReasoningCameFirst(events: seq<Event>) {
    exists i :: 0 <= i < |events| && ReasoningFirst(events, i)
  }

  /** The source the events call for. */
  ghost function SourceFor(events: seq<Event>, thinking: bool): Source {
    if thinking && ReasoningCameFirst(events) then ReasoningEvents
    else if OpensBlock(events) then TagBlocks
    else UnknownSource
  }

  /**
   Over every stream, however it is cut: reasoning comes from the events exactly if thinking is on and one
   with text came before any opening tag was completed, and otherwise from the blocks exactly if one was
   opened.
   */
  lemma FirstSourceWins(events: seq<Event>, thinking: bool)
    ensures FinalSource(events, thinking) == SourceFor(events, thinking)
  {
    hide HoldAfter, OpensBlock, ReasoningCameFirst;
    var all := events + [ToolCall];
    SourceIs(all, thinking);
    assert all[..|events|] == events && all[|events|] == ToolCall;
    OneMoreEvent(events, ToolCall);
    NoTagInNothing();
  }

  lemma NoTagInNothing()
    ensures !Contains("", OPEN_TAG)
  {
  }

  lemma OneMoreEvent(events: seq<Event>, e: Event)
    ensures OpensBlock(events + [e]) <==> OpensBlock(events) || Contains(SinceCall(events + [e]), OPEN_TAG)
    ensures ReasoningCameFirst(events + [e]) <==>
              ReasoningCameFirst(events) || (e.ReasoningChunk? && e.text != "" && !OpensBlock(events))
    ensures SinceCall(events + [e]) ==
              if e.ToolCall? then "" else if e.ReasoningChunk? then SinceCall(events) else SinceCall(events) + e.text
    ensures Contains(SinceCall(events), OPEN_TAG) ==> OpensBlock(events)
  {
    var all := events + [e];
    assert all[..|events|] == events && all[..|all|] == all && events[..|events|] == events;
    forall n | 0 <= n <= |events| ensures all[..n] == events[..n] { }
    hide Contains, SinceCall, OPEN_TAG;
    forall i | 0 <= i < |events| ensures ReasoningFirst(all, i) <==> ReasoningFirst(events, i) {
      assert all[i] == events[i] && all[..i] == events[..i];
    }
    if ReasoningCameFirst(events) {
      var i :| 0 <= i < |events| && ReasoningFirst(events, i);
      assert ReasoningFirst(all, i);
    }
    assert e.ReasoningChunk? && e.text != "" && !OpensBlock(events) ==> ReasoningFirst(all, |events|);
  }

  /** While no source is decided nothing but text outside a block is held, and it is all that matters of the text. */
  ghost predicate Undecided(events: seq<Event>, h: Hold) {
    && !h.block
    && forall more: string :: Contains(SinceCall(events) + more, OPEN_TAG) <==> Contains(h.text + more, OPEN_TAG)
  }

  lemma {:induction false} SourceIs(events: seq<Event>, thinking: bool)
    ensures HoldAfter(events, thinking).stage.source == SourceFor(events, thinking)
    ensures SourceFor(events, thinking) == UnknownSource ==> Undecided(events, HoldAfter(events, thinking))
    decreases |events|
  {
    if events == [] {
      NoTagInNothing();
    } else {
      var init, e := events[..|events| - 1], events[|events| - 1];
      assert events == init + [e] && events[..|events|] == events;
      SourceIs(init, thinking);
      HoldSnoc(events, |events| - 1, thinking);
      OneMoreEvent(init, e);
      hide HoldAfter, OpensBlock, ReasoningCameFirst, SinceCall;
      var h := HoldAfter(init, thinking);
      SourceStays(ReadOf(h, e).raw, h.stage, thinking);
      if h.stage.source == UnknownSource { FromUndecided(init, e, h, thinking); }
    }
  }

  /** The source, once decided, is never changed. */
  lemma {:induction false} SourceStays(raw: seq<Raw>, st: Stage, thinking: bool)
    ensures st.source != UnknownSource ==> StageAfter(raw, st, thinking).source == st.source
  {
    if raw != [] { SourceStays(raw[1..], Step(raw[0], st, thinking), thinking); }
  }

  lemma FromUndecided(events: seq<Event>, e: Event, h: Hold, thinking: bool)
    requires h.stage.source == UnknownSource && Undecided(events, h) && !Contains(SinceCall(events), OPEN_TAG)
    ensures var r, all := ReadOf(h, e), events + [e];
            var after := Hold(r.rest, r.block, StageAfter(r.raw, h.stage, thinking));
            && after.stage.source ==
                 (if Contains(SinceCall(all), OPEN_TAG) then TagBlocks
                  else if thinking && e.ReasoningChunk? && e.text != "" then ReasoningEvents else UnknownSource)
            && (after.stage.source == UnknownSource ==> Undecided(all, after))
  {
    OneMoreEvent(events, e);
    assert SinceCall(events) + "" == SinceCall(events) && h.text + "" == h.text;
    assert !Contains(h.text, OPEN_TAG);
    NoTagInNothing();
    if e.ToolCall? {
      UndecidedReads(h.text, h.stage, true, thinking);
    } else if e.ReasoningChunk? || e.text == "" {
      KeepsOne(Native(e.text), h.stage, thinking);
    } else {
      UndecidedReads(h.text + e.text, h.stage, false, thinking);
      if !Contains(h.text + e.text, OPEN_TAG) { UndecidedText(events, e, h); }
    }
  }

  /** Outside a block, with no source decided, a tag decides it and nothing else does. */
  lemma UndecidedReads(s: string, st: Stage, force: bool, thinking: bool)
    requires st.source == UnknownSource
    ensures StageAfter(RawOf(s, false, force), st, thinking).source
              == if Contains(s, OPEN_TAG) then TagBlocks else UnknownSource
    ensures !Contains(s, OPEN_TAG) ==>
              !Reads(s, false, force).block
              && Reads(s, false, force).rest == if force then "" else s[SafeLength(|s|, false)..]
  {
    KeepsOne(Resume, st, thinking);
    KeepsConcat([Resume], Reads(s, false, force).raw, st, thinking);
    var resumed := Step(Resume, st, thinking);
    hide Reads, Keeps, StageAfter, Contains;
    if Contains(s, OPEN_TAG) {
      TagDecides(s, resumed, force, thinking);
    } else {
      NothingDecides(s, resumed, force, thinking);
    }
  }

  lemma TagDecides(s: string, st: Stage, force: bool, thinking: bool)
    requires st.source == UnknownSource && Contains(s, OPEN_TAG)
    ensures StageAfter(Reads(s, false, force).raw, st, thinking).source == TagBlocks
  {
    var at := FirstOpening(s);
    assert TagFor(false) == OPEN_TAG;
    ReadsTag(s, false, force, at);
    hide Reads, Keeps, StageAfter, TagFor, OccursAt;
    var piece, rest := Piece(s[..at], false), Reads(s[at + |OPEN_TAG|..], true, force).raw;
    KeepsTwo(piece, Opening, st, thinking);
    KeepsConcat([piece, Opening], rest, st, thinking);
    SourceStays(rest, Step(Opening, Step(piece, st, thinking), thinking), thinking);
  }

  lemma NothingDecides(s: string, st: Stage, force: bool, thinking: bool)
    requires st.source == UnknownSource && !Contains(s, OPEN_TAG)
    ensures StageAfter(Reads(s, false, force).raw, st, thinking).source == UnknownSource
    ensures !Reads(s, false, force).block
    ensures Reads(s, false, force).rest == if force then "" else s[SafeLength(|s|, false)..]
  {
    FirstAtIs(s, OPEN_TAG, -1);
    var raw := Reads(s, false, force).raw;
    assert raw == [raw[0]] && raw[0].Piece? && !raw[0].thinking;
    hide Reads, StageAfter;
    KeepsOne(raw[0], st, thinking);
  }

  lemma FirstOpening(s: string) returns (at: int)
    requires Contains(s, OPEN_TAG)
    ensures OccursAt(s, OPEN_TAG, at) && forall j :: j < at ==> !OccursAt(s, OPEN_TAG, j)
  {
    var j :| OccursAt(s, OPEN_TAG, j);
    assert j >= 0 && forall k :: k < 0 ==> !OccursAt(s, OPEN_TAG, k);
    hide OccursAt;
    at := 0;
    while !OccursAt(s, OPEN_TAG, at)
      invariant 0 <= at <= j && forall k :: k < at ==> !OccursAt(s, OPEN_TAG, k)
      decreases j - at
    {
      at := at + 1;
    }
  }

  /** Text without a tag: of what is let go no tag can begin any more. */
  lemma UndecidedText(events: seq<Event>, e: Event, h: Hold)
    requires e.AnswerChunk? && Undecided(events, h) && !Contains(h.text + e.text, OPEN_TAG)
    ensures var s := h.text + e.text;
            Undecided(events + [e], Hold(s[SafeLength(|s|, false)..], false, h.stage))
  {
    var s := h.text + e.text;
    var k := SafeLength(|s|, false);
    OneMoreEvent(events, e);
    hide SinceCall, Contains;
    forall more: string
      ensures Contains(SinceCall(events + [e]) + more, OPEN_TAG) <==> Contains(s[k..] + more, OPEN_TAG)
    {
      ConcatAssociative(SinceCall(events), e.text, more);
      ConcatAssociative(h.text, e.text, more);
      NoTagLetGo(s, k, more);
    }
  }

  lemma OccursBefore(s: string, k: nat, more: string, j: nat)
    requires j < k <= |s| && |s| - k >= MARGIN && OccursAt(s + more, OPEN_TAG, j)
    ensures OccursAt(s, OPEN_TAG, j)
  {
    assert OPEN_TAG <= (s + more)[j..] && s[j..] == (s + more)[j..|s|];
    assert OPEN_TAG <= s[j..];
  }

  lemma NoTagLetGo(s: string, k: nat, more: string)
    requires k <= |s| && (k == 0 || |s| - k >= MARGIN) && !Contains(s, OPEN_TAG)
    ensures Contains(s + more, OPEN_TAG) <==> Contains(s[k..] + more, OPEN_TAG)
  {
    forall j | OccursAt(s + more, OPEN_TAG, j) ensures Contains(s[k..] + more, OPEN_TAG) {
      if j < k {
        OccursBefore(s, k, more, j);
        assert false;
      } else {
        assert (s + more)[j..] == (s[k..] + more)[j - k..];
        assert OccursAt(s[k..] + more, OPEN_TAG, j - k);
      }
    }
    forall j | OccursAt(s[k..] + more, OPEN_TAG, j) ensures Contains(s + more, OPEN_TAG) {
      assert (s + more)[j + k..] == (s[k..] + more)[j..];
      assert OccursAt(s + more, OPEN_TAG, j + k);
    }
  }

  /**
   What has been shown after some events: `answer` and `reasoning` before the last tool call,
   and since then `done` of the text `sofar`, whose rest is in the buffer.
   */
  ghost predicate ShownSoFar(inline: InlineSplitter, calls: seq<Call>, answer: string, reasoning: string,
                             sofar: string, done: seq<Mark>, events: seq<Event>)
    reads inline
  {
    && inline.Valid()
    && Conserved(sofar, false, done, inline.textBuffer, inline.inThinkingBlock)
    && BracketAfter(calls, Closed) == inline.Open()
    && AnswerCalls(calls) == answer + Only(done, false)
    && (inline.thinkingSource != ReasoningEvents ==> ThinkingCalls(calls) == reasoning + Only(done, true))
    && (inline.thinkingSource == ReasoningEvents ==> ThinkingCalls(calls) == ReasoningText(events))
    && (inline.thinkingSource == UnknownSource ==> ThinkingCalls(calls) == "")
    && (inline.thinkingSource == UnknownSource && inline.thinking ==> ReasoningText(events) == "")
  }

  /** Joining the calls of one more step to those before it. */
  lemma {:induction false} ShownThen(calls: seq<Call>, before: string, beforeThinking: string, done: seq<Mark>,
                                     more: seq<Call>, next: seq<Mark>, source: Source)
    requires Shows(more, next, source)
    requires AnswerCalls(calls) == before + Only(done, false)
    ensures AnswerCalls(calls + more) == before + Only(done + next, false)
    ensures source == ReasoningEvents ==> ThinkingCalls(calls + more) == ThinkingCalls(calls)
    ensures source == UnknownSource ==> ThinkingCalls(calls + more) == ThinkingCalls(calls)
    ensures source != ReasoningEvents && ThinkingCalls(calls) == beforeThinking + Only(done, true) ==>
              ThinkingCalls(calls + more) == beforeThinking + Only(done + next, true)
    ensures BracketAfter(calls + more, Closed) == BracketAfter(more, BracketAfter(calls, Closed))
  {
    hide AnswerCalls, ThinkingCalls, Only, BracketAfter;
    CallsConcat(calls, more, Closed);
    OnlyConcat(done, next, false);
    OnlyConcat(done, next, true);
    ConcatAssociative(before, Only(done, false), Only(next, false));
    ConcatAssociative(beforeThinking, Only(done, true), Only(next, true));
    assert ThinkingCalls(calls) + "" == ThinkingCalls(calls);
  }

  /** Where a run is: what was shown before the last tool call, and since then `done` of the text `sofar`. */
  datatype Progress = Progress(answer: string, reasoning: string, sofar: string, done: seq<Mark>)

  const AT_START := Progress("", "", "", [])

  ghost function HoldOf(inline: InlineSplitter): Hold
    reads inline
  {
    Hold(inline.textBuffer, inline.inThinkingBlock, inline.At())
  }

  /** After i events the calls show what is due so far, and what remains to show is that of the remaining events. */
  ghost predicate RunsTo(inline: InlineSplitter, calls: seq<Call>, p: Progress, events: seq<Event>, i: nat)
    reads inline
  {
    && i <= |events|
    && HoldAfter(events[..i], inline.thinking) == HoldOf(inline)
    && ShownSoFar(inline, calls, p.answer, p.reasoning, p.sofar, p.done, events[..i])
    && Expected(events, "", false) == p.answer + Expected(events[i..], p.sofar, false)
    && Expected(events, "", true) == p.reasoning + Expected(events[i..], p.sofar, true)
  }

  /** One upstream callback: the calls it makes. */
  method Receive(inline: InlineSplitter, event: Event, ghost calls: seq<Call>, ghost p: Progress,
                 ghost events: seq<Event>, ghost i: nat)
      returns (more: seq<Call>, ghost p': Progress)
    requires RunsTo(inline, calls, p, events, i) && i < |events| && event == events[i]
    modifies inline
    ensures RunsTo(inline, calls + more, p', events, i + 1)
    ensures TokensBy(more) == Brought(events[..i], event, inline.thinking)
    ensures match event
            case AnswerChunk(text) => p'.sofar == p.sofar + text && p'.answer == p.answer
            case ReasoningChunk(_) => p'.sofar == p.sofar && p'.answer == p.answer && AnswerCalls(more) == ""
            case ToolCall =>
              && p'.sofar == "" && p'.done == []
              && p'.answer == p.answer + Only(Scan(p.sofar, false), false) && inline.Open() == Closed
  {
    hide Conserved, Shows, BracketAfter, BracketStep, TagFor, Scan, AnswerCalls, ThinkingCalls, Only, ReasoningText,
      HoldAfter, HasRead, Brought, TokensBy, Keep, Step;
    ReasoningTextSnoc(events, i);
    ghost var h := HoldOf(inline);
    assert events[i..][1..] == events[i + 1..];
    more, p' := [], p;
    assert calls + [] == calls;
    match event {
      case AnswerChunk(text) =>
        if text != "" {
          ConservedExtends(p.sofar, false, p.done, inline.textBuffer, inline.inThinkingBlock, text);
          ghost var buffer, block := inline.textBuffer + text, inline.inThinkingBlock;
          ghost var next: seq<Mark>;
          more, next := inline.ProcessText(text, false);
          TextRead(events, i, inline.thinking, h, more, HoldOf(inline));
          ConservedThen(p.sofar + text, false, p.done, buffer, block, next, inline.textBuffer, inline.inThinkingBlock);
          ShownThen(calls, p.answer, p.reasoning, p.done, more, next, inline.thinkingSource);
          p' := Progress(p.answer, p.reasoning, p.sofar + text, p.done + next);
        } else {
          assert p.sofar + text == p.sofar;
          NothingRead(events, i, inline.thinking);
        }
      case ReasoningChunk(text) =>
        OnlyNothing();
        NoCalls();
        if text != "" {
          more := inline.ProcessReasoning(text);
          CallsConcat(calls, more, Closed);
          ReasoningRead(events, i, inline.thinking, more);
        } else {
          NothingRead(events, i, inline.thinking);
        }
      case ToolCall =>
        ghost var buffer, block := inline.textBuffer, inline.inThinkingBlock;
        ghost var next: seq<Mark>;
        more, next := inline.ProcessText("", true);
        TextRead(events, i, inline.thinking, h, more, HoldOf(inline));
        StretchDone(p.sofar, p.done, buffer, block);
        ShownThen(calls, p.answer, p.reasoning, p.done, more, next, inline.thinkingSource);
        ConcatAssociative(p.answer, Only(Scan(p.sofar, false), false), Expected(events[i + 1..], "", false));
        ConcatAssociative(p.reasoning, Only(Scan(p.sofar, false), true), Expected(events[i + 1..], "", true));
        p' := Progress(p.answer + Only(Scan(p.sofar, false), false), p.reasoning + Only(Scan(p.sofar, false), true),
                       "", []);
        ConservedAtStart("", false);
        OnlyNothing();
    }
  }

  /** An event that adds nothing leaves all as it is. */
  lemma NothingRead(events: seq<Event>, i: nat, thinking: bool)
    requires i < |events| && (events[i] == AnswerChunk("") || events[i] == ReasoningChunk(""))
    ensures HoldAfter(events[..i + 1], thinking) == HoldAfter(events[..i], thinking)
    ensures TokensBy([]) == Brought(events[..i], events[i], thinking)
  {
    HoldSnoc(events, i, thinking);
    TokensOnce(Call("", ThinkingEnd));
  }

  lemma ReasoningRead(events: seq<Event>, i: nat, thinking: bool, calls: seq<Call>)
    requires i < |events| && events[i].ReasoningChunk? && events[i].text != ""
    requires TokensBy(calls) == Keep(Native(events[i].text), HoldAfter(events[..i], thinking).stage, thinking)
    ensures var h := HoldAfter(events[..i], thinking);
            HoldAfter(events[..i + 1], thinking)
            == Hold(h.text, h.block, Step(Native(events[i].text), h.stage, thinking))
    ensures TokensBy(calls) == Brought(events[..i], events[i], thinking)
  {
    HoldSnoc(events, i, thinking);
    hide HoldAfter, Keep, Keeps, StageAfter, TokensBy;
    KeepsOne(Native(events[i].text), HoldAfter(events[..i], thinking).stage, thinking);
  }

  lemma TextRead(events: seq<Event>, i: nat, thinking: bool, h: Hold, calls: seq<Call>, after: Hold)
    requires i < |events| && h == HoldAfter(events[..i], thinking)
    requires (events[i].AnswerChunk? && events[i].text != "") || events[i].ToolCall?
    requires var text := if events[i].AnswerChunk? then events[i].text else "";
             HasRead(events[i].ToolCall?, thinking, h.text + text, h.block, h.stage, calls, after.text, after.block,
                     after.stage)
    ensures HoldAfter(events[..i + 1], thinking) == after
    ensures TokensBy(calls) == Brought(events[..i], events[i], thinking)
  {
    HoldSnoc(events, i, thinking);
    hide HoldAfter, TokensBy, Reads, Keeps, StageAfter, RawOf;
    assert h.text + "" == h.text;
  }

  lemma RestRead(events: seq<Event>, thinking: bool, h: Hold, calls: seq<Call>, after: Hold)
    requires h == HoldAfter(events, thinking)
    requires HasRead(true, thinking, h.text + "", h.block, h.stage, calls, after.text, after.block, after.stage)
    ensures TokensBy(calls) == Rest(events, thinking) && after.stage.source == FinalSource(events, thinking)
  {
    hide HasRead, HoldAfter, Brought, TokensBy;
    var all := events + [ToolCall];
    assert all[..|events|] == events && all[..|all|] == all;
    TextRead(all, |events|, thinking, h, calls, after);
  }

  /** What the calls of a whole stream come to. */
  ghost predicate ShowsStream(calls: seq<Call>, source: Source, thinking: bool, events: seq<Event>) {
    && AnswerCalls(calls) == Expected(events, "", false)
    && (source == TagBlocks ==> ThinkingCalls(calls) == Expected(events, "", true))
    && (source == ReasoningEvents ==> thinking && ThinkingCalls(calls) == ReasoningText(events))
    && (source == UnknownSource ==> ThinkingCalls(calls) == Expected(events, "", true) == "")
    && (source == UnknownSource && thinking ==> ReasoningText(events) == "")
    && BracketAfter(calls, Closed) == Closed
  }

  /** The flush at the end of the stream. */
  method FinishStream(inline: InlineSplitter, ghost calls: seq<Call>, ghost p: Progress, ghost events: seq<Event>)
      returns (more: seq<Call>)
    requires RunsTo(inline, calls, p, events, |events|)
    modifies inline
    ensures inline.Valid() && !inline.eventThinkingOpen
    ensures ShowsStream(calls + more, inline.thinkingSource, inline.thinking, events)
    ensures AnswerCalls(calls + more) == p.answer + Only(Scan(p.sofar, false), false)
    ensures TokensBy(more) == Rest(events, inline.thinking)
    ensures inline.thinkingSource == FinalSource(events, inline.thinking)
  {
    hide HoldAfter, HasRead, TokensBy, FinalSource, Rest;
    ghost var h := HoldOf(inline);
    hide Conserved, Shows, BracketAfter, BracketStep, TagFor, Scan, AnswerCalls, ThinkingCalls, Only, ReasoningText;
    assert events[..|events|] == events && events[|events|..] == [];
    ghost var buffer, block := inline.textBuffer, inline.inThinkingBlock;
    ghost var next: seq<Mark>;
    more, next := inline.ProcessText("", true);
    RestRead(events, inline.thinking, h, more, HoldOf(inline));
    StretchDone(p.sofar, p.done, buffer, block);
    ShownThen(calls, p.answer, p.reasoning, p.done, more, next, inline.thinkingSource);
  }

  /**
   Every stream, cut anywhere, with reasoning events and tool calls anywhere: the answer sent is
   the reference answer of each stretch between tool calls; the reasoning sent is either all of
   the tag blocks' or all of the events', never both, as `FinalSource` says; and the phases are well
   bracketed.  Answer and reasoning are said in the order of `SaidAfter`.
   */
  method Run(thinking: bool, events: seq<Event>) returns (calls: seq<Call>, source: Source)
    ensures ShowsStream(calls, source, thinking, events)
    ensures TokensBy(calls) == SaidAfter(events, thinking) + Rest(events, thinking)
    ensures source == FinalSource(events, thinking)
  {
    TokensOnce(Call("", ThinkingEnd));
    assert events[..0] == [] && SaidAfter(events[..0], thinking) == [];
    hide RunsTo, ShowsStream, TokensBy, SaidAfter, Brought, Rest, FinalSource, HoldAfter;
    var inline := new InlineSplitter(thinking);
    calls := [];
    ghost var p := AT_START;
    RunStart(inline, events);
    var i := 0;
    while i < |events|
      invariant 0 <= i <= |events| && fresh(inline) && inline.thinking == thinking
      invariant RunsTo(inline, calls, p, events, i) && TokensBy(calls) == SaidAfter(events[..i], thinking)
    {
      SaidAfterSnoc(events, i, thinking);
      var more: seq<Call>;
      more, p := Receive(inline, events[i], calls, p, events, i);
      TokensConcat(calls, more);
      calls := calls + more;
      i := i + 1;
    }
    assert events[..|events|] == events;
    var rest := FinishStream(inline, calls, p, events);
    TokensConcat(calls, rest);
    calls, source := calls + rest, inline.thinkingSource;
  }

  lemma SaidAfterSnoc(events: seq<Event>, i: nat, thinking: bool)
    requires i < |events|
    ensures SaidAfter(events[..i + 1], thinking)
              == SaidAfter(events[..i], thinking) + Brought(events[..i], events[i], thinking)
  {
    hide Brought;
    assert events[..i + 1][..i] == events[..i];
  }

  lemma NoCalls()
    ensures AnswerCalls([]) == ""
  {
  }

  lemma RunStart(inline: InlineSplitter, events: seq<Event>)
    requires inline.Valid() && inline.textBuffer == "" && !inline.inThinkingBlock
               && inline.At() == Stage(UnknownSource, Shut)
    ensures RunsTo(inline, [], AT_START, events, 0)
  {
    assert events[0..] == events && events[..0] == [];
    hide Expected;
    ConservedAtStart("", false);
    OnlyNothing();
    assert "" + Expected(events, "", false) == Expected(events, "", false)
        && "" + Expected(events, "", true) == Expected(events, "", true);
  }

  lemma OnlyNothing()
    ensures Only([], false) == "" && Only([], true) == ""
  {
  }

  lemma StretchDone(sofar: string, done: seq<Mark>, buffer: string, block: bool)
    requires Conserved(sofar, false, done, buffer, block)
    ensures Scan(sofar, false) == done + Scan(buffer + "", block)
  {
    assert buffer + "" == buffer;
  }
}
