/**
 The Claude stream emitter (proxy/handler.go, handleClaudeStream): how the calls of the inline buffer
 and the tool calls become numbered content blocks.  Every trace it sends is one the reader of
 ClaudeClient accepts, and what the blocks say is what was sent, call by call.
 */
module ClaudeStream {
  import opened Text
  import opened Speech
  import opened ClaudeClient
  import InlineSplit
  import ThinkingSplit

  /** How reasoning is shown: inside <think> marks, as plain text, or in thinking blocks. */
  datatype Format = ThinkMarks | ReasoningContent | ThinkingBlocks

  datatype Settings = Settings(thinking: bool, format: Format, omitDisplay: bool)

  /** What the emitter is told to send: text with its phase, or a tool call. */
  datatype Input = Sent(call: InlineSplit.Call) | Tool(id: string, name: string, input: string)

  /** The text a call adds, and whether it is shown as thinking. */
  function Rendered(s: Settings, x: Input): seq<Spoken> {
    match x
    case Tool(id, name, input) => [Called(ToolCall(id, name, input))]
    case Sent(call) =>
      if call.phase == InlineSplit.AnswerText then Chars(call.text, false)
      else if !s.thinking then []
      else
        match s.format
        case ThinkMarks => Chars(Marked(call), false)
        case ReasoningContent => Chars(call.text, false)
        case ThinkingBlocks => if s.omitDisplay then [] else Chars(call.text, true)
  }

  function Marked(call: InlineSplit.Call): string {
    match call.phase
    case ThinkingStart => "<think>" + call.text
    case ThinkingEnd => call.text + "</think>"
    case _ => call.text
  }

  function RenderedAll(s: Settings, fed: seq<Input>): seq<Spoken> {
    if fed == [] then [] else RenderedAll(s, fed[..|fed| - 1]) + Rendered(s, fed[|fed| - 1])
  }

  lemma RenderedSnoc(s: Settings, fed: seq<Input>, x: Input)
    ensures RenderedAll(s, fed + [x]) == RenderedAll(s, fed) + Rendered(s, x)
  {
    hide Rendered;
    assert (fed + [x])[..|fed|] == fed;
  }

  // ---------------------------------------------------------------- the emitter's records

  /** The client agrees with the emitter's own records. */
  ghost predicate Agrees(client: Client, started: bool, next: nat, activeIndex: int, activeType: Option<BlockKind>) {
    && client.stage == (if started then Running else NotStarted)
    && (!started ==> client.blocks == [] && client.open == None)
    && (activeType.None? <==> activeIndex < 0) && (activeType.None? <==> client.open.None?)
    && (activeType.Some? ==>
          && activeIndex == |client.blocks| && client.open.value.kind == activeType.value
          && !activeType.value.ToolBlock?)
    && next == |client.blocks| + (if client.open.Some? then 1 else 0)
    && TextIsJoined(client.blocks)
    && (client.open.Some? && client.open.value.kind.TextBlock? ==> !EndsWithText(client.blocks))
  }

  /** A block may be started as it is: text does not follow text. */
  ghost predicate MayStart(client: Client, kind: BlockKind) {
    client.open == None && (kind.TextBlock? ==> !EndsWithText(client.blocks))
  }

  lemma ClosedAgrees(client: Client, next: nat, activeIndex: int, activeType: Option<BlockKind>)
    requires Agrees(client, true, next, activeIndex, activeType) && activeType.Some?
    ensures activeIndex == |client.blocks| && client.open.Some? && client.stage == Running
              && !client.open.value.kind.ToolBlock?
    ensures Agrees(Client(Running, client.blocks + [client.open.value], None), true, next, -1, None)
    ensures EndsWithText(client.blocks + [client.open.value]) <==> activeType == Some(TextBlock)
    ensures activeType == Some(ThinkingBlock) ==>
              EndsWithThinking(Client(Running, client.blocks + [client.open.value], None))
  {
  }

  lemma StartedAgrees(client: Client, next: nat, activeIndex: int, activeType: Option<BlockKind>, kind: BlockKind)
    requires Agrees(client, true, next, activeIndex, activeType) && MayStart(client, kind) && !kind.ToolBlock?
    ensures next == |client.blocks| && client.stage == Running
    ensures Agrees(Client(Running, client.blocks, Some(Block(kind, ""))), true, next + 1, next, Some(kind))
  {
  }

  lemma GrownAgrees(client: Client, next: nat, activeIndex: int, activeType: Option<BlockKind>, text: string)
    requires Agrees(client, true, next, activeIndex, activeType) && activeType.Some?
    ensures activeIndex == |client.blocks| && client.stage == Running && client.open.Some?
              && client.open.value.kind == activeType.value
    ensures Agrees(Client(Running, client.blocks, Some(Block(client.open.value.kind, client.open.value.text + text))),
                   true, next, activeIndex, activeType)
  {
  }

  lemma CallAgrees(client: Client, next: nat, activeIndex: int, activeType: Option<BlockKind>, call: Block)
    requires Agrees(client, true, next, activeIndex, activeType) && client.open == None && call.kind.ToolBlock?
    ensures next == |client.blocks| && client.stage == Running
    ensures Agrees(Client(Running, client.blocks + [call], None), true, next + 1, activeIndex, activeType)
    ensures !EndsWithText(client.blocks + [call])
  {
  }

  lemma BeginAgrees(client: Client, next: nat, activeIndex: int, activeType: Option<BlockKind>)
    requires Agrees(client, false, next, activeIndex, activeType)
    ensures client == NEW_CLIENT
    ensures Agrees(Client(Running, [], None), true, next, activeIndex, activeType)
  {
  }

  lemma NothingActive(client: Client, started: bool, next: nat, activeIndex: int, activeType: Option<BlockKind>)
    requires Agrees(client, started, next, activeIndex, activeType) && activeType.None?
    ensures client.open == None && client.stage == (if started then Running else NotStarted)
  {
  }

  // ---------------------------------------------------------------- the emitter

  class ClaudeEmitter {
    const settings: Settings
    var trace: seq<Event>
    var messageStarted: bool
    var nextContentIndex: nat
    var activeBlockIndex: int
    /** The source's "", "text" or "thinking". */
    var activeBlockType: Option<BlockKind>

    /** The client after the trace, what was sent so far, and the thinking bracket of it. */
    ghost var client: Client
    ghost var fed: seq<Input>
    ghost var bracket: InlineSplit.Bracket

    ghost predicate Shape()
      reads this
    {
      && Replay(trace) == Some(client) && (messageStarted <==> trace != [])
      && Agrees(client, messageStarted, nextContentIndex, activeBlockIndex, activeBlockType)
    }

    ghost predicate Valid()
      reads this
    {
      && Shape()
      && Told(client) == RenderedAll(settings, fed)
      && (messageStarted <==> Stirred(settings, TokensOf(fed)))
      && PageOf(client) == Layout(settings, TokensOf(fed))
      && MayStartText(client)
      && (activeBlockType == Some(ThinkingBlock) ==>
          bracket == InlineSplit.Opened && settings.thinking && settings.format == ThinkingBlocks)
    }

    constructor (settings: Settings)
      ensures Valid() && this.settings == settings && trace == [] && fed == [] && !messageStarted
                && bracket == InlineSplit.Closed
    {
      this.settings := settings;
      trace, messageStarted, nextContentIndex, activeBlockIndex, activeBlockType := [], false, 0, -1, None;
      client, fed, bracket := NEW_CLIENT, [], InlineSplit.Closed;
      new;
      StirredMore(settings, [], Tool("", "", ""));
      assert TokensOf([]) == [];
    }

    /** sendSSE: an event the client must be ready for. */
    method Send(e: Event)
      requires Replay(trace) == Some(client) && Accept(client, e).Some?
      modifies this`trace, this`client
      ensures Replay(trace) == Some(client) && client == Accept(old(client), e).value && trace == old(trace) + [e]
      ensures Told(client) == Told(old(client)) + Says(old(client), e)
    {
      EventTells(client, e);
      hide Accept, Told;
      ReplaySnoc(trace, e);
      trace := trace + [e];
      client := Replay(trace).value;
    }

    method EnsureMessageStart()
      requires Shape()
      modifies this`trace, this`client, this`messageStarted
      ensures Shape() && messageStarted && Told(client) == Told(old(client))
      ensures PageOf(client) == PageOf(old(client))
    {
      if messageStarted { return; }
      hide Told, Replay, Agrees;
      BeginAgrees(client, nextContentIndex, activeBlockIndex, activeBlockType);
      Send(MessageStart);
      messageStarted := true;
    }

    method CloseActiveBlock()
      requires Shape()
      modifies this`trace, this`client, this`activeBlockIndex, this`activeBlockType
      ensures Shape() && activeBlockType == None && Told(client) == Told(old(client))
      ensures PageOf(client) == PageOf(old(client)).Close()
      ensures old(activeBlockType).None? ==> client == old(client)
      ensures old(activeBlockType).Some? ==>
                messageStarted && (EndsWithText(client.blocks) <==> old(activeBlockType) == Some(TextBlock))
      ensures old(activeBlockType) == Some(ThinkingBlock) ==> EndsWithThinking(client)
    {
      if activeBlockIndex < 0 {
        NothingActive(client, messageStarted, nextContentIndex, activeBlockIndex, activeBlockType);
        return;
      }
      hide Told, Replay, Agrees, EndsWithText, EndsWithThinking;
      ClosedAgrees(client, nextContentIndex, activeBlockIndex, activeBlockType);
      Send(BlockStop(activeBlockIndex));
      activeBlockIndex := -1;
      activeBlockType := None;
    }

    /** A block of another type than the open one closes it and starts; one of the same type goes on. */
    method StartContentBlock(blockType: BlockKind)
      requires Shape() && MayStartText(client) && !blockType.ToolBlock?
      modifies this`trace, this`client, this`messageStarted, this`activeBlockIndex, this`activeBlockType,
                 this`nextContentIndex
      ensures Shape() && messageStarted && activeBlockType == Some(blockType) && Told(client) == Told(old(client))
      ensures PageOf(client) == PageOf(old(client)).Grow(blockType, "")
    {
      OpenIsActive();
      if activeBlockType == Some(blockType) { StartedAlready(); return; }
      hide Shape, Told, EndsWithThinking;
      EnsureMessageStart();
      MakeWay(blockType);
      StartBlock(blockType);
    }

    /** Closes a block of another type. */
    method MakeWay(blockType: BlockKind)
      requires Shape() && messageStarted && MayStartText(client) && activeBlockType != Some(blockType)
      modifies this`trace, this`client, this`activeBlockIndex, this`activeBlockType
      ensures Shape() && activeBlockType == None && MayStart(client, blockType) && Told(client) == Told(old(client))
      ensures PageOf(client) == PageOf(old(client)).Close()
    {
      hide Told, Replay, Agrees, EndsWithText, EndsWithThinking;
      CloseActiveBlock();
      NothingActive(client, messageStarted, nextContentIndex, activeBlockIndex, activeBlockType);
    }

    method StartBlock(blockType: BlockKind)
      requires Shape() && messageStarted && activeBlockType == None && MayStart(client, blockType)
                 && !blockType.ToolBlock?
      modifies this`trace, this`client, this`activeBlockIndex, this`activeBlockType, this`nextContentIndex
      ensures Shape() && activeBlockType == Some(blockType) && Told(client) == Told(old(client))
      ensures PageOf(client) == Page(old(client).blocks, Some(Block(blockType, "")))
    {
      hide Told, Replay, Agrees, MayStart;
      NothingActive(client, messageStarted, nextContentIndex, activeBlockIndex, activeBlockType);
      StartedAgrees(client, nextContentIndex, activeBlockIndex, activeBlockType, blockType);
      var idx := nextContentIndex;
      nextContentIndex := nextContentIndex + 1;
      Send(BlockStart(idx, blockType));
      activeBlockIndex := idx;
      activeBlockType := Some(blockType);
    }

    lemma OpenIsActive()
      requires Shape()
      ensures activeBlockType == if client.open.Some? then Some(client.open.value.kind) else None
      ensures client.open.Some? ==> client.open.value.text + "" == client.open.value.text
    {
    }

    lemma StartedAlready()
      requires Shape() && activeBlockType.Some?
      ensures messageStarted
    {
    }

    /** A delta for the open block. */
    method SendDelta(delta: DeltaKind, text: string)
      requires Shape() && messageStarted && activeBlockType.Some? && delta == DeltaFor(activeBlockType.value)
      modifies this`trace, this`client
      ensures Shape() && Told(client) == Told(old(client)) + Chars(text, delta == ThinkingDelta)
      ensures PageOf(client) == PageOf(old(client)).Grow(activeBlockType.value, text)
    {
      hide Told, Replay, Agrees;
      GrownAgrees(client, nextContentIndex, activeBlockIndex, activeBlockType, text);
      Send(BlockDelta(activeBlockIndex, delta, text));
    }

    /** Text into a text block, if there is any. */
    method SendPlain(text: string)
      requires Shape() && MayStartText(client)
      modifies this`trace, this`client, this`messageStarted, this`activeBlockIndex, this`activeBlockType,
                 this`nextContentIndex
      ensures Shape() && MayStartText(client) && Told(client) == Told(old(client)) + Chars(text, false)
      ensures activeBlockType == (if text == "" then old(activeBlockType) else Some(TextBlock))
      ensures messageStarted == (old(messageStarted) || text != "")
      ensures PageOf(client) == (if text == "" then PageOf(old(client)) else PageOf(old(client)).Grow(TextBlock, text))
    {
      if text == "" {
        CharsConcat<ToolCall>("", "", false);
        return;
      }
      hide Told, Agrees, Replay;
      StartContentBlock(TextBlock);
      SendDelta(TextDelta, text);
      GrowTwice(PageOf(old(client)), TextBlock, "", text);
      assert "" + text == text;
      ActiveIsOpen();
    }

    lemma ActiveIsOpen()
      requires Shape() && activeBlockType.Some?
      ensures MayStartText(client)
    {
    }

    /** Reasoning in thinking blocks of its own. */
    method SendThinkingBlock(text: string, phase: InlineSplit.Phase)
      requires Shape() && MayStartText(client) && phase != InlineSplit.AnswerText
      modifies this`trace, this`client, this`messageStarted, this`activeBlockIndex, this`activeBlockType,
                 this`nextContentIndex
      ensures Shape() && MayStartText(client) && Told(client) == Told(old(client)) +
                (if settings.omitDisplay then [] else Chars(text, true))
      ensures phase == InlineSplit.ThinkingEnd ==> activeBlockType != Some(ThinkingBlock)
      ensures phase != InlineSplit.ThinkingEnd
                && (if settings.omitDisplay then phase == InlineSplit.ThinkingStart else text != "") ==>
                activeBlockType == Some(ThinkingBlock)
      ensures phase == InlineSplit.ThinkingEnd && (settings.omitDisplay || text != "") ==> EndsWithThinking(client)
      ensures messageStarted ==
              (old(messageStarted) || if settings.omitDisplay then phase != InlineSplit.ThinkingMore else text != "")
      ensures PageOf(client) == ThinkingPage(settings.omitDisplay, PageOf(old(client)), text, phase)
    {
      CharsConcat<ToolCall>("", "", true);
      OpenIsActive();
      hide Told, Agrees, Replay, EndsWithText, EndsWithThinking;
      if settings.omitDisplay {
        if phase == InlineSplit.ThinkingStart {
          StartContentBlock(ThinkingBlock);
          ActiveIsOpen();
          return;
        }
        if phase == InlineSplit.ThinkingEnd {
          if activeBlockType == Some(ThinkingBlock) { StartedAlready(); }
          if activeBlockType != Some(ThinkingBlock) { StartContentBlock(ThinkingBlock); }
          CloseActiveBlock();
        }
        return;
      }
      if phase == InlineSplit.ThinkingEnd && text == "" {
        if activeBlockType == Some(ThinkingBlock) { CloseActiveBlock(); }
        return;
      }
      if text != "" {
        StartContentBlock(ThinkingBlock);
        SendDelta(ThinkingDelta, text);
        GrowTwice(PageOf(old(client)), ThinkingBlock, "", text);
        assert "" + text == text;
        ActiveIsOpen();
      }
      if phase == InlineSplit.ThinkingEnd && activeBlockType == Some(ThinkingBlock) {
        CloseActiveBlock();
      }
    }

    /** sendText. */
    method SendText(call: InlineSplit.Call)
      requires Valid() && InlineSplit.BracketStep(bracket, call.phase) != InlineSplit.Misplaced
      modifies this
      ensures Valid() && fed == old(fed) + [Sent(call)] && bracket == InlineSplit.BracketStep(old(bracket), call.phase)
      ensures old(messageStarted) ==> messageStarted
    {
      hide Told, Agrees, Replay, EndsWithText, RenderedAll, Chars, Stirred, TokensOf, Layout;
      RenderedSnoc(settings, fed, Sent(call));
      StirredMore(settings, fed, Sent(call));
      LayoutMore(settings, fed, Sent(call));
      fed := fed + [Sent(call)];
      bracket := InlineSplit.BracketStep(bracket, call.phase);
      if call.phase == InlineSplit.AnswerText {
        SendPlain(call.text);
        return;
      }
      if !settings.thinking { return; }
      match settings.format {
        case ThinkMarks => SendPlain(Marked(call));
        case ReasoningContent => SendPlain(call.text);
        case ThinkingBlocks => SendThinkingBlock(call.text, call.phase);
      }
    }

    /** The calls one callback makes, in order. */
    method SendCalls(calls: seq<InlineSplit.Call>)
      requires Valid() && InlineSplit.BracketAfter(calls, bracket) != InlineSplit.Misplaced
      modifies this
      ensures Valid() && fed == old(fed) + SentAll(calls) && bracket == InlineSplit.BracketAfter(calls, old(bracket))
      ensures old(messageStarted) ==> messageStarted
    {
      hide Valid, SentAll;
      ghost var fed0 := fed;
      var i := 0;
      SentAllStart(calls);
      assert fed0 + [] == fed0;
      while i < |calls|
        invariant 0 <= i <= |calls|
        invariant Valid() && fed == fed0 + SentAll(calls[..i])
        invariant InlineSplit.BracketAfter(calls[i..], bracket) == InlineSplit.BracketAfter(calls, old(bracket))
        invariant old(messageStarted) ==> messageStarted
      {
        SentAllStep(calls, i);
        PlacedNext(calls, i, bracket);
        ConcatAssociative(fed0, SentAll(calls[..i]), [Sent(calls[i])]);
        SendText(calls[i]);
        i := i + 1;
      }
    }

    /** OnToolUse, the buffer having been flushed: a block of its own, filled and stopped at once. */
    method EmitTool(id: string, name: string, input: string)
      requires Valid() && bracket == InlineSplit.Closed
      modifies this
      ensures Valid() && messageStarted && fed == old(fed) + [Tool(id, name, input)] && bracket == InlineSplit.Closed
    {
      hide Told, Agrees, Replay, EndsWithText, RenderedAll, Stirred, TokensOf, Layout;
      RenderedSnoc(settings, fed, Tool(id, name, input));
      StirredMore(settings, fed, Tool(id, name, input));
      LayoutMore(settings, fed, Tool(id, name, input));
      fed := fed + [Tool(id, name, input)];
      EnsureMessageStart();
      CloseActiveBlock();
      NothingActive(client, messageStarted, nextContentIndex, activeBlockIndex, activeBlockType);
      var idx := nextContentIndex;
      CallAgrees(client, nextContentIndex, activeBlockIndex, activeBlockType, Block(ToolBlock(id, name), input));
      nextContentIndex := nextContentIndex + 1;
      SendTool(idx, id, name, input);
    }

    method SendTool(idx: nat, id: string, name: string, input: string)
      requires Replay(trace) == Some(client) && client.stage == Running && client.open == None && idx == |client.blocks|
      modifies this`trace, this`client
      ensures Replay(trace) == Some(client)
                && client == Client(Running, old(client).blocks + [Block(ToolBlock(id, name), input)], None)
      ensures Told(client) == Told(old(client)) + [Called(ToolCall(id, name, input))] && trace != []
    {
      hide Told, Replay;
      Send(BlockStart(idx, ToolBlock(id, name)));
      assert "" + input == input;
      Send(BlockDelta(idx, InputJsonDelta, input));
      Send(BlockStop(idx));
    }

    /** The end of a successful attempt, the buffer having been flushed. */
    method Finish()
      requires Valid()
      modifies this
      ensures Replay(trace) == Some(client) && client.stage == Ended && client.open == None
      ensures TextIsJoined(client.blocks) && Told(client) == RenderedAll(settings, fed) && fed == old(fed)
      ensures trace != [] && trace[|trace| - 1] == MessageStop
      ensures client.blocks == Layout(settings, TokensOf(fed)).Close().blocks
    {
      hide Layout, TokensOf, Told, Agrees, Replay, EndsWithText, RenderedAll, TextIsJoined;
      CloseActiveBlock();
      EnsureMessageStart();
      NothingActive(client, messageStarted, nextContentIndex, activeBlockIndex, activeBlockType);
      TextStaysJoined(client, messageStarted, nextContentIndex, activeBlockIndex, activeBlockType);
      Send(MessageDelta);
      Send(MessageStop);
    }

    /** The end of an attempt that failed after it began to answer. */
    method Abort()
      requires Valid() && messageStarted
      modifies this
      ensures Replay(trace) == Some(client) && client.stage == Ended && client.open == None
      ensures TextIsJoined(client.blocks) && Told(client) == RenderedAll(settings, fed) && fed == old(fed)
      ensures trace != [] && trace[|trace| - 1] == ErrorEvent
      ensures client.blocks == Layout(settings, TokensOf(fed)).Close().blocks
    {
      hide Layout, TokensOf, Told, Agrees, Replay, EndsWithText, RenderedAll, TextIsJoined;
      CloseActiveBlock();
      NothingActive(client, messageStarted, nextContentIndex, activeBlockIndex, activeBlockType);
      TextStaysJoined(client, messageStarted, nextContentIndex, activeBlockIndex, activeBlockType);
      Send(ErrorEvent);
    }
  }

  lemma TextStaysJoined(client: Client, started: bool, next: nat, activeIndex: int, activeType: Option<BlockKind>)
    requires Agrees(client, started, next, activeIndex, activeType)
    ensures TextIsJoined(client.blocks)
  {
  }

  /** What becomes of the blocks with a piece of reasoning that has blocks of its own. */
  function ThinkingPage(omitDisplay: bool, page: Page, text: string, phase: InlineSplit.Phase): Page {
    var begun := if omitDisplay && phase == InlineSplit.ThinkingStart then page.Grow(ThinkingBlock, "") else page;
    var said := if omitDisplay || text == "" then begun else begun.Grow(ThinkingBlock, text);
    if phase == InlineSplit.ThinkingEnd then EndThinking(omitDisplay, said) else said
  }

  /** The end of a stretch of reasoning closes its block; where nothing of it is shown there is one all the same. */
  function EndThinking(omitDisplay: bool, page: Page): Page {
    if omitDisplay then page.Grow(ThinkingBlock, "").Close()
    else if page.open.Some? && page.open.value.kind == ThinkingBlock then page.Close()
    else page
  }

  function SentAll(calls: seq<InlineSplit.Call>): seq<Input> {
    seq(|calls|, i requires 0 <= i < |calls| => Sent(calls[i]))
  }

  lemma SentAllStart(calls: seq<InlineSplit.Call>)
    ensures calls[..0] == [] && calls[0..] == calls && calls[..|calls|] == calls && SentAll([]) == []
  {
  }

  lemma SentAllStep(calls: seq<InlineSplit.Call>, i: nat)
    requires i < |calls|
    ensures SentAll(calls[..i + 1]) == SentAll(calls[..i]) + [Sent(calls[i])]
  {
  }

  /** Once out of turn, always out of turn: so the next call is in turn. */
  lemma PlacedNext(calls: seq<InlineSplit.Call>, i: nat, b: InlineSplit.Bracket)
    requires i < |calls| && InlineSplit.BracketAfter(calls[i..], b) != InlineSplit.Misplaced
    ensures InlineSplit.BracketStep(b, calls[i].phase) != InlineSplit.Misplaced
    ensures InlineSplit.BracketAfter(calls[i + 1..], InlineSplit.BracketStep(b, calls[i].phase))
              == InlineSplit.BracketAfter(calls[i..], b)
  {
    assert calls[i..][1..] == calls[i + 1..];
    MisplacedStays(calls[i + 1..]);
  }

  lemma {:induction false} MisplacedStays(calls: seq<InlineSplit.Call>)
    ensures InlineSplit.BracketAfter(calls, InlineSplit.Misplaced) == InlineSplit.Misplaced
  {
    if calls != [] { MisplacedStays(calls[1..]); }
  }

  /** The last finished block is one of thinking, and nothing is open. */
  predicate EndsWithThinking(client: Client) {
    client.open == None && client.blocks != [] && client.blocks[|client.blocks| - 1].kind.ThinkingBlock?
  }

  /** Text can be started next unless a text block is open. */
  ghost predicate MayStartText(client: Client) {
    client.open == None ==> !EndsWithText(client.blocks)
  }

  function Says(c: Client, e: Event): seq<Spoken> {
    match e
    case BlockDelta(_, delta, text) =>
        (match delta case TextDelta => Chars(text, false) case ThinkingDelta => Chars(text, true)
         case InputJsonDelta => [])
    case BlockStop(_) =>
      if c.open.Some? && c.open.value.kind.ToolBlock?
          then [Called(ToolCall(c.open.value.kind.id, c.open.value.kind.name, c.open.value.text))] else []
    case _ => []
  }

  lemma EventTells(c: Client, e: Event)
    requires Accept(c, e).Some?
    ensures Told(Accept(c, e).value) == Told(c) + Says(c, e)
  {
    match e
    case BlockDelta(index, delta, text) => hide Told; DeltaTells(c, index, delta, text);
    case BlockStop(index) => hide Told; BlockStopTells(c, index);
    case _ => hide Told; OtherTells(c, e);
  }

  // ---------------------------------------------------------------- what the callbacks mean

  datatype Callback = OnText(text: string, isThinking: bool) | OnToolUse(id: string, name: string, input: string)

  function EventOf(c: Callback): InlineSplit.Event {
    match c
    case OnText(text, isThinking) => if isThinking then InlineSplit.ReasoningChunk(text)
        else InlineSplit.AnswerChunk(text)
    case OnToolUse(_, _, _) => InlineSplit.ToolCall
  }

  function Events(calls: seq<Callback>): seq<InlineSplit.Event> {
    seq(|calls|, i requires 0 <= i < |calls| => EventOf(calls[i]))
  }

  /** The answer and the calls in their order: each stretch of text between two calls is split as a whole. */
  function ExpectedLine(calls: seq<Callback>, sofar: string): seq<Spoken>
    decreases |calls|
  {
    if calls == [] then AnswerChars(sofar)
    else
      match calls[0]
      case OnText(text, isThinking) => ExpectedLine(calls[1..], if isThinking then sofar else sofar + text)
      case OnToolUse(id, name, input) =>
        AnswerChars(sofar) + [Called(ToolCall(id, name, input))] + ExpectedLine(calls[1..], "")
  }

  function AnswerChars(text: string): seq<Spoken> {
    Chars(ThinkingSplit.AnswerOf(text), false)
  }

  function SentCalls(fed: seq<Input>): seq<InlineSplit.Call> {
    if fed == [] then [] else SentCalls(fed[..|fed| - 1]) + (if fed[|fed| - 1].Sent? then [fed[|fed| - 1].call] else [])
  }

  /** The answer text and the calls that were sent, in order. */
  function AnswerLine(fed: seq<Input>): seq<Spoken> {
    if fed == [] then []
    else
      AnswerLine(fed[..|fed| - 1]) +
      match fed[|fed| - 1]
      case Sent(call) => (if call.phase == InlineSplit.AnswerText then Chars(call.text, false) else [])
      case Tool(id, name, input) => [Called(ToolCall(id, name, input))]
  }

  lemma FedSnoc(fed: seq<Input>, x: Input)
    ensures SentCalls(fed + [x]) == SentCalls(fed) + (if x.Sent? then [x.call] else [])
    ensures AnswerLine(fed + [x]) == AnswerLine(fed) +
              match x case Sent(call) => (if call.phase == InlineSplit.AnswerText then Chars(call.text, false) else [])
                  case Tool(id, name, input) => [Called(ToolCall(id, name, input))]
  {
    assert (fed + [x])[..|fed|] == fed;
  }

  lemma {:induction false} FedCalls(fed: seq<Input>, calls: seq<InlineSplit.Call>)
    ensures SentCalls(fed + SentAll(calls)) == SentCalls(fed) + calls
    ensures AnswerLine(fed + SentAll(calls)) == AnswerLine(fed) + Chars(InlineSplit.AnswerCalls(calls), false)
  {
    hide SentCalls, AnswerLine, InlineSplit.AnswerCalls;
    if calls == [] {
      assert fed + SentAll(calls) == fed;
      InlineSplit.NoCalls();
      CharsConcat<ToolCall>("", "", false);
    } else {
      var init, last := calls[..|calls| - 1], calls[|calls| - 1];
      FedCalls(fed, init);
      assert fed + SentAll(calls) == (fed + SentAll(init)) + [Sent(last)];
      FedSnoc(fed + SentAll(init), Sent(last));
      assert calls == init + [last];
      InlineSplit.CallsConcat(init, [last], InlineSplit.Closed);
      InlineSplit.OneCall(last, InlineSplit.Closed);
      var text := if last.phase == InlineSplit.AnswerText then last.text else "";
      CharsConcat<ToolCall>(InlineSplit.AnswerCalls(init), text, false);
      CharsConcat<ToolCall>("", "", false);
      hide Chars, SentAll;
      ConcatAssociative(AnswerLine(fed), Chars(InlineSplit.AnswerCalls(init), false), Chars(text, false));
      ConcatAssociative(SentCalls(fed), init, [last]);
    }
  }

  // ---------------------------------------------------------------- all that was sent, in order

  /** What is said, with the places where a stretch of reasoning begins and ends. */
  datatype Token = Plain(said: Spoken) | Begin | End

  function TokensOf(fed: seq<Input>): seq<Token> {
    Collect(fed, TokensIn)
  }

  function TokensIn(x: Input): seq<Token> {
    match x
    case Sent(call) =>
      (if call.phase == InlineSplit.ThinkingStart then [Begin] else [])
      + Tokens(Chars(call.text, call.phase != InlineSplit.AnswerText))
      + (if call.phase == InlineSplit.ThinkingEnd then [End] else [])
    case Tool(id, name, input) => [Plain(Called(ToolCall(id, name, input)))]
  }

  function Tokens(line: seq<Spoken>): (tokens: seq<Token>)
    ensures |tokens| == |line| && forall i :: 0 <= i < |line| ==> tokens[i] == Plain(line[i])
  {
    seq(|line|, i requires 0 <= i < |line| => Plain(line[i]))
  }

  function Spell(tokens: seq<InlineSplit.Token>): (spelled: seq<Token>)
    ensures |spelled| == |tokens| && forall i :: 0 <= i < |tokens| ==> spelled[i] == SpellOne(tokens[i])
  {
    seq(|tokens|, i requires 0 <= i < |tokens| => SpellOne(tokens[i]))
  }

  function SpellOne(t: InlineSplit.Token): Token {
    match t
    case Char(mark) => Plain(if mark.thinking then Thought(mark.ch) else Visible(mark.ch))
    case Begin => Begin
    case End => End
  }

  /** What one token does to the blocks. */
  function Put(s: Settings, page: Page, t: Token): Page {
    match t
    case Plain(said) =>
      (match said
       case Visible(ch) => page.Grow(TextBlock, [ch])
       case Thought(ch) =>
         if !s.thinking then page
         else if s.format != ThinkingBlocks then page.Grow(TextBlock, [ch])
         else if s.omitDisplay then page else page.Grow(ThinkingBlock, [ch])
       case Called(call) => page.Call(call))
    case Begin =>
      if !s.thinking then page
      else
        (match s.format
         case ThinkMarks => page.Grow(TextBlock, "<think>")
         case ReasoningContent => page
         case ThinkingBlocks => if s.omitDisplay then page.Grow(ThinkingBlock, "") else page)
    case End =>
      if !s.thinking then page
      else
        (match s.format
         case ThinkMarks => page.Grow(TextBlock, "</think>")
         case ReasoningContent => page
         case ThinkingBlocks => EndThinking(s.omitDisplay, page))
  }

  /** The blocks that tokens make of a page, one after the other. */
  function PutAll(s: Settings, page: Page, tokens: seq<Token>): Page {
    if tokens == [] then page else Put(s, PutAll(s, page, tokens[..|tokens| - 1]), tokens[|tokens| - 1])
  }

  function Layout(s: Settings, tokens: seq<Token>): Page {
    PutAll(s, Page([], None), tokens)
  }

  lemma {:induction false} PutConcat(s: Settings, page: Page, a: seq<Token>, b: seq<Token>)
    ensures PutAll(s, page, a + b) == PutAll(s, PutAll(s, page, a), b)
  {
    hide Put;
    if b == [] {
      assert a + b == a;
    } else {
      PutConcat(s, page, a, b[..|b| - 1]);
      assert (a + b)[..|a + b| - 1] == a + b[..|b| - 1];
    }
  }

  lemma PutOne(s: Settings, page: Page, t: Token)
    ensures PutAll(s, page, [t]) == Put(s, page, t) && PutAll(s, page, []) == page
  {
    hide Put;
    assert [t][..0] == [];
  }

  /** A piece of text as a whole. */
  lemma {:induction false} PutChars(s: Settings, page: Page, text: string, thought: bool)
    ensures PutAll(s, page, Tokens(Chars(text, thought))) ==
              if text == "" || (thought && (!s.thinking || (s.format == ThinkingBlocks && s.omitDisplay))) then page
              else page.Grow(if thought && s.format == ThinkingBlocks then ThinkingBlock else TextBlock, text)
  {
    hide Put, PutAll, Page.Grow;
    if text == "" {
      PutNothing(s, page, thought);
    } else {
      var init, last := text[..|text| - 1], text[|text| - 1];
      var one := Plain(if thought then Thought(last) else Visible(last));
      var before := PutAll(s, page, Tokens(Chars<ToolCall>(init, thought)));
      PutChars(s, page, init, thought);
      CharsSnoc(text, thought);
      PutConcat(s, page, Tokens(Chars<ToolCall>(init, thought)), [one]);
      PutOne(s, before, one);
      PutChar(s, before, last, thought);
      hide Chars, Tokens;
      assert text == init + [last] && (init == "" ==> [last] == text);
      GrowTwice(page, if thought && s.format == ThinkingBlocks then ThinkingBlock else TextBlock, init, [last]);
    }
  }

  lemma PutNothing(s: Settings, page: Page, thought: bool)
    ensures PutAll(s, page, Tokens(Chars<ToolCall>("", thought))) == page
  {
  }

  lemma CharsSnoc(text: string, thought: bool)
    requires text != ""
    ensures var init, last := text[..|text| - 1], text[|text| - 1];
            Tokens(Chars<ToolCall>(text, thought)) ==
              Tokens(Chars<ToolCall>(init, thought)) + [Plain(if thought then Thought(last) else Visible(last))]
  {
  }

  lemma PutChar(s: Settings, page: Page, ch: char, thought: bool)
    ensures Put(s, page, Plain(if thought then Thought(ch) else Visible(ch))) ==
              if thought && (!s.thinking || (s.format == ThinkingBlocks && s.omitDisplay)) then page
              else page.Grow(if thought && s.format == ThinkingBlocks then ThinkingBlock else TextBlock, [ch])
  {
  }

  /** What one call does to the blocks. */
  function CallPage(s: Settings, page: Page, call: InlineSplit.Call): Page {
    if call.phase == InlineSplit.AnswerText then (if call.text == "" then page else page.Grow(TextBlock, call.text))
    else if !s.thinking then page
    else
      match s.format
      case ThinkMarks => if Marked(call) == "" then page else page.Grow(TextBlock, Marked(call))
      case ReasoningContent => if call.text == "" then page else page.Grow(TextBlock, call.text)
      case ThinkingBlocks => ThinkingPage(s.omitDisplay, page, call.text, call.phase)
  }

  lemma PutCall(s: Settings, page: Page, call: InlineSplit.Call)
    ensures PutAll(s, page, TokensIn(Sent(call))) == CallPage(s, page, call)
  {
    var thought := call.phase != InlineSplit.AnswerText;
    var before := if call.phase == InlineSplit.ThinkingStart then [Begin] else [];
    var after := if call.phase == InlineSplit.ThinkingEnd then [End] else [];
    var said := Tokens(Chars<ToolCall>(call.text, thought));
    hide Chars, Tokens, PutAll;
    PutConcat(s, page, before + said, after);
    PutConcat(s, page, before, said);
    PutOne(s, page, Begin);
    var begun := PutAll(s, page, before);
    PutChars(s, begun, call.text, thought);
    var grown := PutAll(s, begun, said);
    PutOne(s, grown, End);
    GrowTwice(page, TextBlock, "<think>", call.text);
    GrowTwice(page, TextBlock, call.text, "</think>");
    assert "<think>" + "" == "<think>" && "" + "</think>" == "</think>";
  }

  lemma LayoutMore(s: Settings, fed: seq<Input>, x: Input)
    ensures Layout(s, TokensOf(fed + [x])) ==
              if x.Sent? then CallPage(s, Layout(s, TokensOf(fed)), x.call)
              else Layout(s, TokensOf(fed)).Call(ToolCall(x.id, x.name, x.input))
  {
    if x.Tool? { assert TokensIn(x) == [Plain(Called(ToolCall(x.id, x.name, x.input)))]; }
    hide TokensOf, TokensIn, PutAll, CallPage;
    TokensConcat(fed, [x]);
    TokensOfOne(x);
    PutConcat(s, Page([], None), TokensOf(fed), TokensIn(x));
    if x.Sent? {
      PutCall(s, Layout(s, TokensOf(fed)), x.call);
    } else {
      PutOne(s, Layout(s, TokensOf(fed)), Plain(Called(ToolCall(x.id, x.name, x.input))));
    }
  }

  lemma SpellConcat(a: seq<InlineSplit.Token>, b: seq<InlineSplit.Token>)
    ensures Spell(a + b) == Spell(a) + Spell(b)
  {
  }

  lemma SpellCall(call: InlineSplit.Call)
    ensures Spell(InlineSplit.TokensOf(call)) == TokensIn(Sent(call))
  {
  }

  lemma TokensConcat(a: seq<Input>, b: seq<Input>)
    ensures TokensOf(a + b) == TokensOf(a) + TokensOf(b)
  {
    CollectConcat(a, b, TokensIn);
  }

  lemma TokensOfOne(x: Input)
    ensures TokensOf([x]) == TokensIn(x)
  {
    CollectOne(x, TokensIn);
  }

  lemma TokensByOne(call: InlineSplit.Call)
    ensures InlineSplit.TokensBy([call]) == InlineSplit.TokensOf(call)
  {
    CollectOne(call, InlineSplit.TokensOf);
  }

  lemma {:induction false} TokensOfSent(calls: seq<InlineSplit.Call>)
    ensures TokensOf(SentAll(calls)) == Spell(InlineSplit.TokensBy(calls))
  {
    if calls == [] {
      InlineSplit.TokensOnce(InlineSplit.Call("", InlineSplit.ThinkingEnd));
    } else {
      var init, last := calls[..|calls| - 1], calls[|calls| - 1];
      assert calls == init + [last] && SentAll(calls) == SentAll(init) + [Sent(last)];
      hide TokensOf, TokensIn, SentAll, Spell, InlineSplit.TokensBy, InlineSplit.TokensOf;
      TokensOfSent(init);
      TokensConcat(SentAll(init), [Sent(last)]);
      TokensOfOne(Sent(last));
      SpellCall(last);
      InlineSplit.TokensConcat(init, [last]);
      TokensByOne(last);
      SpellConcat(InlineSplit.TokensBy(init), InlineSplit.TokensOf(last));
    }
  }

  /** What the callbacks make the buffer say, each piece of answer and reasoning and each call where it came. */
  function Arrived(calls: seq<Callback>, thinking: bool): seq<Token> {
    if calls == [] then []
    else
      var init, last := calls[..|calls| - 1], calls[|calls| - 1];
      Arrived(init, thinking) + Spell(InlineSplit.Brought(Events(init), EventOf(last), thinking)) + CallOf(last)
  }

  function CallOf(c: Callback): seq<Token> {
    if c.OnToolUse? then [Plain(Called(ToolCall(c.id, c.name, c.input)))] else []
  }

  /** The same with what is still held at the end. */
  function Flushed(calls: seq<Callback>, thinking: bool): seq<Token> {
    Arrived(calls, thinking) + Spell(InlineSplit.Rest(Events(calls), thinking))
  }

  /** The source of the reasoning shown. */
  function SourceOf(calls: seq<Callback>, thinking: bool): InlineSplit.Source {
    InlineSplit.FinalSource(Events(calls), thinking)
  }

  lemma ArrivedNext(fed: seq<Input>, calls: seq<Callback>, i: nat, thinking: bool, more: seq<InlineSplit.Call>)
    requires i < |calls| && TokensOf(fed) == Arrived(calls[..i], thinking)
    requires InlineSplit.TokensBy(more) == InlineSplit.Brought(Events(calls)[..i], EventOf(calls[i]), thinking)
    ensures TokensOf(fed + SentAll(more)) + CallOf(calls[i]) == Arrived(calls[..i + 1], thinking)
  {
    hide TokensOf, SentAll, InlineSplit.TokensBy, InlineSplit.Brought, EventOf, CallOf, Spell;
    assert calls[..i + 1][..i] == calls[..i] && Events(calls)[..i] == Events(calls[..i]);
    TokensConcat(fed, SentAll(more));
    TokensOfSent(more);
  }

  lemma FlushedAtEnd(fed: seq<Input>, calls: seq<Callback>, thinking: bool, more: seq<InlineSplit.Call>)
    requires TokensOf(fed) == Arrived(calls, thinking)
    requires InlineSplit.TokensBy(more) == InlineSplit.Rest(Events(calls), thinking)
    ensures TokensOf(fed + SentAll(more)) == Flushed(calls, thinking)
  {
    hide TokensOf, SentAll, InlineSplit.TokensBy, InlineSplit.Rest, Arrived, Spell;
    TokensConcat(fed, SentAll(more));
    TokensOfSent(more);
  }

  // ---------------------------------------------------------------- how it is shown

  /** What is said, without those places. */
  function Unmarked(tokens: seq<Token>): seq<Spoken> {
    Collect(tokens, SaidIn)
  }

  function SaidIn(t: Token): seq<Spoken> {
    if t.Plain? then [t.said] else []
  }

  /** How the client is told: reasoning between marks, as text, in thinking blocks or not at all. */
  function SeenOf(s: Settings, t: Token): seq<Spoken> {
    match t
    case Plain(said) => if said.Thought? then SeenThought(s, said.ch) else [said]
    case Begin => if s.thinking && s.format == ThinkMarks then Chars("<think>", false) else []
    case End => if s.thinking && s.format == ThinkMarks then Chars("</think>", false) else []
  }

  function SeenThought(s: Settings, ch: char): seq<Spoken> {
    if !s.thinking then []
    else if s.format != ThinkingBlocks then [Visible(ch)]
    else if s.omitDisplay then [] else [Thought(ch)]
  }

  function Seen(s: Settings, tokens: seq<Token>): seq<Spoken> {
    Collect(tokens, (t: Token) => SeenOf(s, t))
  }

  /** Whether a stretch of reasoning is open after some tokens, from `open` on; None once one is out of place. */
  function OpenAfter(tokens: seq<Token>, open: bool): Option<bool> {
    if tokens == [] then Some(open)
    else
      match tokens[0]
      case Plain(said) => if said.Thought? == open then OpenAfter(tokens[1..], open) else None
      case Begin => if open then None else OpenAfter(tokens[1..], true)
      case End => if open then OpenAfter(tokens[1..], false) else None
  }

  lemma {:induction false} OpenAfterConcat(a: seq<Token>, b: seq<Token>, open: bool)
    ensures OpenAfter(a + b, open) ==
              match OpenAfter(a, open) case None => None case Some(o) => OpenAfter(b, o)
  {
    if a == [] {
      assert a + b == b;
    } else {
      assert (a + b)[1..] == a[1..] + b;
      if a[0].Plain? || a[0].Begin? != open {
        OpenAfterConcat(a[1..], b, if a[0].Begin? then true else if a[0].End? then false else open);
      }
    }
  }

  /** Reasoning stands within its stretches only, which do not nest, and everything else outside. */
  ghost predicate WellMarked(tokens: seq<Token>, open: bool) {
    OpenAfter(tokens, false) == Some(open)
  }

  lemma {:induction false} OpenAfterChars(text: string, thought: bool, open: bool)
    requires thought == open
    ensures OpenAfter(Tokens(Chars(text, thought)), open) == Some(open)
  {
    if text != "" {
      OpenAfterChars(text[1..], thought, open);
      assert Tokens(Chars<ToolCall>(text, thought))[1..] == Tokens(Chars<ToolCall>(text[1..], thought));
    }
  }

  /** A call in its phase opens and closes a stretch as the bracket says. */
  lemma CallIsMarked(call: InlineSplit.Call, b: InlineSplit.Bracket)
    requires b != InlineSplit.Misplaced && InlineSplit.BracketStep(b, call.phase) != InlineSplit.Misplaced
    ensures OpenAfter(TokensIn(Sent(call)), b == InlineSplit.Opened)
              == Some(InlineSplit.BracketStep(b, call.phase) == InlineSplit.Opened)
  {
    var thought := call.phase != InlineSplit.AnswerText;
    var before := if call.phase == InlineSplit.ThinkingStart then [Begin] else [];
    var said := Tokens(Chars<ToolCall>(call.text, thought));
    var after := if call.phase == InlineSplit.ThinkingEnd then [End] else [];
    hide Chars, Tokens;
    OpenAfterChars(call.text, thought, thought);
    OpenAfterConcat(before + said, after, b == InlineSplit.Opened);
    OpenAfterConcat(before, said, b == InlineSplit.Opened);
    assert [Begin][1..] == [] && [End][1..] == [];
  }

  lemma {:induction false} SentIsMarked(calls: seq<InlineSplit.Call>, b: InlineSplit.Bracket)
    requires b != InlineSplit.Misplaced && InlineSplit.BracketAfter(calls, b) != InlineSplit.Misplaced
    ensures OpenAfter(TokensOf(SentAll(calls)), b == InlineSplit.Opened)
              == Some(InlineSplit.BracketAfter(calls, b) == InlineSplit.Opened)
    decreases |calls|
  {
    if calls != [] {
      assert calls[0..] == calls;
      PlacedNext(calls, 0, b);
      var next := InlineSplit.BracketStep(b, calls[0].phase);
      assert SentAll(calls)[0] == Sent(calls[0]) && SentAll(calls)[1..] == SentAll(calls[1..]);
      hide TokensIn, InlineSplit.BracketStep, SentAll, OpenAfter;
      SentIsMarked(calls[1..], next);
      CallIsMarked(calls[0], b);
      OpenAfterConcat(TokensIn(Sent(calls[0])), TokensOf(SentAll(calls[1..])), b == InlineSplit.Opened);
    }
  }

  lemma MarkedMore(fed: seq<Input>, calls: seq<InlineSplit.Call>, b: InlineSplit.Bracket)
    requires WellMarked(TokensOf(fed), b == InlineSplit.Opened)
    requires b != InlineSplit.Misplaced && InlineSplit.BracketAfter(calls, b) != InlineSplit.Misplaced
    ensures WellMarked(TokensOf(fed + SentAll(calls)), InlineSplit.BracketAfter(calls, b) == InlineSplit.Opened)
  {
    hide TokensOf, OpenAfter, InlineSplit.BracketAfter, SentAll;
    TokensConcat(fed, SentAll(calls));
    SentIsMarked(calls, b);
    OpenAfterConcat(TokensOf(fed), TokensOf(SentAll(calls)), false);
  }

  lemma MarkedCall(fed: seq<Input>, id: string, name: string, input: string)
    requires WellMarked(TokensOf(fed), false)
    ensures WellMarked(TokensOf(fed + [Tool(id, name, input)]), false)
  {
    var call := Tool(id, name, input);
    TokensConcat(fed, [call]);
    CollectOne(call, TokensIn);
    assert TokensIn(call)[1..] == [];
    OpenAfterConcat(TokensOf(fed), TokensIn(call), false);
  }

  lemma SeenConcat(s: Settings, a: seq<Token>, b: seq<Token>)
    ensures Seen(s, a + b) == Seen(s, a) + Seen(s, b)
  {
    CollectConcat(a, b, (t: Token) => SeenOf(s, t));
  }

  lemma {:induction false} SeenOfChars(s: Settings, text: string, thought: bool)
    ensures Seen(s, Tokens(Chars(text, thought))) ==
              if !thought then Chars(text, false)
              else if !s.thinking then []
              else if s.format != ThinkingBlocks then Chars(text, false)
              else if s.omitDisplay then [] else Chars(text, true)
  {
    if text != "" {
      SeenOfChars(s, text[1..], thought);
      assert Tokens(Chars<ToolCall>(text, thought))[1..] == Tokens(Chars<ToolCall>(text[1..], thought));
    }
  }

  lemma SeenOfMark(s: Settings, t: Token)
    ensures Seen(s, [t]) == SeenOf(s, t) && Seen(s, []) == []
  {
    CollectOne(t, (t: Token) => SeenOf(s, t));
  }

  lemma RenderedIsSeen(s: Settings, x: Input)
    ensures Rendered(s, x) == Seen(s, TokensIn(x))
  {
    match x
    case Tool(id, name, input) =>
      assert TokensIn(x) == [Plain(Called(ToolCall(id, name, input)))];
      SeenOfMark(s, Plain(Called(ToolCall(id, name, input))));
    case Sent(call) =>
      var thought := call.phase != InlineSplit.AnswerText;
      SeenInParts(s, call);
      SeenOfChars(s, call.text, thought);
      SeenOfMark(s, Begin);
      SeenOfMark(s, End);
      CharsConcat<ToolCall>("<think>", call.text, false);
      CharsConcat<ToolCall>(call.text, "</think>", false);
      hide Seen, Chars, Tokens, TokensIn;
      var middle := Seen(s, Tokens(Chars<ToolCall>(call.text, thought)));
      assert [] + middle == middle && middle + [] == middle;
  }

  lemma SeenInParts(s: Settings, call: InlineSplit.Call)
    ensures Seen(s, TokensIn(Sent(call))) ==
              (if call.phase == InlineSplit.ThinkingStart then Seen(s, [Begin]) else [])
              + Seen(s, Tokens(Chars<ToolCall>(call.text, call.phase != InlineSplit.AnswerText)))
              + (if call.phase == InlineSplit.ThinkingEnd then Seen(s, [End]) else [])
  {
    var before := if call.phase == InlineSplit.ThinkingStart then [Begin] else [];
    var after := if call.phase == InlineSplit.ThinkingEnd then [End] else [];
    var said := Tokens(Chars<ToolCall>(call.text, call.phase != InlineSplit.AnswerText));
    assert Seen(s, []) == [];
    hide Seen, Chars, Tokens;
    SeenConcat(s, before + said, after);
    SeenConcat(s, before, said);
  }

  lemma {:induction false} AllRenderedIsSeen(s: Settings, fed: seq<Input>)
    ensures RenderedAll(s, fed) == Seen(s, TokensOf(fed))
  {
    if fed != [] {
      var init, last := fed[..|fed| - 1], fed[|fed| - 1];
      AllRenderedIsSeen(s, init);
      assert fed == init + [last];
      hide Rendered, Seen, TokensOf, TokensIn;
      RenderedIsSeen(s, last);
      TokensConcat(init, [last]);
      TokensOfOne(last);
      SeenConcat(s, TokensOf(init), TokensIn(last));
    }
  }

  // ---------------------------------------------------------------- when the message starts

  /**
   Whether something makes the message start: text or a call, and of reasoning what is shown; where the
   display is left out, the block that stands for it.
   */
  predicate Stirs(s: Settings, t: Token) {
    match t
    case Plain(said) => said.Thought? ==> s.thinking && !(s.format == ThinkingBlocks && s.omitDisplay)
    case _ => s.thinking && (s.format == ThinkMarks || (s.format == ThinkingBlocks && s.omitDisplay))
  }

  ghost predicate Stirred(s: Settings, tokens: seq<Token>) {
    exists i :: 0 <= i < |tokens| && Stirs(s, tokens[i])
  }

  lemma StirredConcat(s: Settings, a: seq<Token>, b: seq<Token>)
    ensures Stirred(s, a + b) <==> Stirred(s, a) || Stirred(s, b)
    ensures !Stirred(s, [])
  {
    hide Stirs;
    if Stirred(s, a) {
      var i :| 0 <= i < |a| && Stirs(s, a[i]);
      assert (a + b)[i] == a[i];
    }
    if Stirred(s, b) {
      var i :| 0 <= i < |b| && Stirs(s, b[i]);
      assert (a + b)[|a| + i] == b[i];
    }
    if Stirred(s, a + b) {
      var i :| 0 <= i < |a + b| && Stirs(s, (a + b)[i]);
      assert i >= |a| ==> (a + b)[i] == b[i - |a|];
    }
  }

  lemma StirredByChars(s: Settings, text: string, thought: bool)
    ensures Stirred(s, Tokens(Chars(text, thought))) <==>
              text != "" && (thought ==> s.thinking && !(s.format == ThinkingBlocks && s.omitDisplay))
  {
    var tokens := Tokens(Chars<ToolCall>(text, thought));
    if text != "" { assert tokens[0] == Plain(if thought then Thought(text[0]) else Visible(text[0])); }
  }

  /** Whether a call makes it start, by format and phase. */
  predicate CallStirs(s: Settings, call: InlineSplit.Call) {
    if call.phase == InlineSplit.AnswerText then call.text != ""
    else if !s.thinking then false
    else
      match s.format
      case ThinkMarks => call.phase != InlineSplit.ThinkingMore || call.text != ""
      case ReasoningContent => call.text != ""
      case ThinkingBlocks => if s.omitDisplay then call.phase != InlineSplit.ThinkingMore else call.text != ""
  }

  lemma StirredByCall(s: Settings, call: InlineSplit.Call)
    ensures Stirred(s, TokensIn(Sent(call))) <==> CallStirs(s, call)
  {
    var thought := call.phase != InlineSplit.AnswerText;
    var before := if call.phase == InlineSplit.ThinkingStart then [Begin] else [];
    var after := if call.phase == InlineSplit.ThinkingEnd then [End] else [];
    var said := Tokens(Chars<ToolCall>(call.text, thought));
    assert Stirs(s, Begin) == Stirs(s, [Begin][0]) && Stirs(s, End) == Stirs(s, [End][0]);
    assert Stirred(s, [Begin]) <==> Stirs(s, Begin);
    assert Stirred(s, [End]) <==> Stirs(s, End);
    StirredByChars(s, call.text, thought);
    StirredConcat(s, before + said, after);
    StirredConcat(s, before, said);
    hide Stirred, Chars, Tokens;
  }

  lemma StirredMore(s: Settings, fed: seq<Input>, x: Input)
    ensures Stirred(s, TokensOf(fed + [x])) <==>
              Stirred(s, TokensOf(fed)) || (if x.Sent? then CallStirs(s, x.call) else true)
    ensures !Stirred(s, TokensOf([]))
  {
    assert TokensOf([]) == [];
    if x.Tool? {
      assert Stirs(s, TokensIn(x)[0]);
      assert Stirred(s, TokensIn(x));
    }
    hide Stirred, TokensOf, TokensIn, CallStirs;
    TokensConcat(fed, [x]);
    TokensOfOne(x);
    StirredConcat(s, TokensOf(fed), TokensIn(x));
    if x.Sent? { StirredByCall(s, x.call); }
  }

  // ---------------------------------------------------------------- one attempt

  /** After i callbacks: the buffer is where it should be, and the line sent so far is what is due. */
  ghost predicate InStep(emitter: ClaudeEmitter, inline: InlineSplit.InlineSplitter, p: InlineSplit.Progress,
                         line: seq<Spoken>, calls: seq<Callback>, i: nat)
    reads emitter, inline
  {
    && emitter.Valid() && emitter.settings.thinking == inline.thinking && i <= |calls|
    && InlineSplit.RunsTo(inline, SentCalls(emitter.fed), p, Events(calls), i)
    && emitter.bracket == InlineSplit.BracketAfter(SentCalls(emitter.fed), InlineSplit.Closed)
    && LineSoFar(emitter.fed, p, line, calls, i)
    && TokensOf(emitter.fed) == Arrived(calls[..i], inline.thinking)
    && WellMarked(TokensOf(emitter.fed), emitter.bracket == InlineSplit.Opened)
  }

  /** `line` was due up to the last call, and since then the settled part of the text. */
  ghost predicate LineSoFar(fed: seq<Input>, p: InlineSplit.Progress, line: seq<Spoken>, calls: seq<Callback>, i: nat)
    requires i <= |calls|
  {
    && AnswerLine(fed) == line + Chars(ThinkingSplit.Only(p.done, false), false)
    && ExpectedLine(calls, "") == line + ExpectedLine(calls[i..], p.sofar)
  }

  /** How the answer grew from one callback to the next. */
  lemma AnswerGrew(answer: string, before: string, sent: seq<InlineSplit.Call>, more: seq<InlineSplit.Call>,
                   after: string)
    requires InlineSplit.AnswerCalls(sent) == answer + before && InlineSplit.AnswerCalls(sent + more) == answer + after
    ensures after == before + InlineSplit.AnswerCalls(more)
  {
    hide InlineSplit.AnswerCalls;
    InlineSplit.CallsConcat(sent, more, InlineSplit.Closed);
    var x, y := answer + after, (answer + before) + InlineSplit.AnswerCalls(more);
    assert x[|answer|..] == after && y[|answer|..] == before + InlineSplit.AnswerCalls(more);
  }

  lemma AnswerSent(inline: InlineSplit.InlineSplitter, sent: seq<InlineSplit.Call>, p: InlineSplit.Progress,
                   events: seq<InlineSplit.Event>, i: nat)
    requires InlineSplit.RunsTo(inline, sent, p, events, i)
    ensures InlineSplit.AnswerCalls(sent) == p.answer + ThinkingSplit.Only(p.done, false)
    ensures InlineSplit.BracketAfter(sent, InlineSplit.Closed) == inline.Open()
              && inline.Open() != InlineSplit.Misplaced
  {
  }

  /** Text, which may still be held back in part. */
  lemma LineAfterText(fed: seq<Input>, p: InlineSplit.Progress, p': InlineSplit.Progress, line: seq<Spoken>,
                      calls: seq<Callback>, i: nat, more: seq<InlineSplit.Call>)
    requires i < |calls| && LineSoFar(fed, p, line, calls, i)
    requires calls[i].OnText? && p'.sofar == (if calls[i].isThinking then p.sofar else p.sofar + calls[i].text)
    requires ThinkingSplit.Only(p'.done, false) == ThinkingSplit.Only(p.done, false) + InlineSplit.AnswerCalls(more)
    ensures LineSoFar(fed + SentAll(more), p', line, calls, i + 1)
  {
    hide InlineSplit.AnswerCalls, ThinkingSplit.Only, AnswerLine, AnswerChars;
    assert calls[i..][1..] == calls[i + 1..] && calls[i..][0] == calls[i];
    FedCalls(fed, more);
    CharsConcat<ToolCall>(ThinkingSplit.Only(p.done, false), InlineSplit.AnswerCalls(more), false);
    hide Chars;
    ConcatAssociative(line, Chars(ThinkingSplit.Only(p.done, false), false),
                      Chars(InlineSplit.AnswerCalls(more), false));
  }

  /** A tool call, before which all text is released. */
  lemma LineAfterTool(fed: seq<Input>, p: InlineSplit.Progress, p': InlineSplit.Progress, line: seq<Spoken>,
                      calls: seq<Callback>, i: nat, more: seq<InlineSplit.Call>)
    requires i < |calls| && LineSoFar(fed, p, line, calls, i)
    requires calls[i].OnToolUse? && p'.sofar == "" && p'.done == []
    requires ThinkingSplit.AnswerOf(p.sofar) == ThinkingSplit.Only(p.done, false) + InlineSplit.AnswerCalls(more)
    ensures var c := calls[i];
            LineSoFar(fed + SentAll(more) + [Tool(c.id, c.name, c.input)], p',
                      line + AnswerChars(p.sofar) + [Called(ToolCall(c.id, c.name, c.input))], calls, i + 1)
  {
    hide InlineSplit.AnswerCalls, ThinkingSplit.AnswerOf, AnswerLine;
    InlineSplit.OnlyNothing();
    hide ThinkingSplit.Only;
    var c := calls[i];
    var called := [Called(ToolCall(c.id, c.name, c.input))];
    assert calls[i..][1..] == calls[i + 1..] && calls[i..][0] == c;
    FedCalls(fed, more);
    FedSnoc(fed + SentAll(more), Tool(c.id, c.name, c.input));
    CharsConcat<ToolCall>(ThinkingSplit.Only(p.done, false), InlineSplit.AnswerCalls(more), false);
    hide Chars;
    ConcatAssociative(line, Chars(ThinkingSplit.Only(p.done, false), false),
                      Chars(InlineSplit.AnswerCalls(more), false));
    ConcatAssociative(line, AnswerChars(p.sofar) + called, ExpectedLine(calls[i + 1..], ""));
    ConcatAssociative(line, AnswerChars(p.sofar), called);
    assert line + AnswerChars(p.sofar) + called + [] == line + AnswerChars(p.sofar) + called;
  }

  /** The callback handlers. */
  method Receive(emitter: ClaudeEmitter, inline: InlineSplit.InlineSplitter, ghost p: InlineSplit.Progress,
                 ghost line: seq<Spoken>,
                 calls: seq<Callback>, i: nat)
      returns (ghost p': InlineSplit.Progress, ghost line': seq<Spoken>)
    requires InStep(emitter, inline, p, line, calls, i) && i < |calls|
    modifies emitter, inline
    ensures InStep(emitter, inline, p', line', calls, i + 1)
  {
    hide ClaudeEmitter.Valid, InlineSplit.RunsTo, InlineSplit.BracketAfter, InlineSplit.AnswerCalls, LineSoFar,
           ThinkingSplit.Only, ThinkingSplit.Scan, TokensOf, Arrived, InlineSplit.TokensBy, InlineSplit.Brought,
           WellMarked;
    ghost var fed, sent := emitter.fed, SentCalls(emitter.fed);
    AnswerSent(inline, sent, p, Events(calls), i);
    var more: seq<InlineSplit.Call>;
    more, p' := InlineSplit.Receive(inline, EventOf(calls[i]), sent, p, Events(calls), i);
    AnswerSent(inline, sent + more, p', Events(calls), i + 1);
    InlineSplit.CallsConcat(sent, more, InlineSplit.Closed);
    FedCalls(fed, more);
    ArrivedNext(fed, calls, i, inline.thinking, more);
    MarkedMore(fed, more, emitter.bracket);
    emitter.SendCalls(more);
    line' := line;
    match calls[i] {
      case OnText(_, _) =>
        AnswerGrew(p.answer, ThinkingSplit.Only(p.done, false), sent, more, ThinkingSplit.Only(p'.done, false));
        LineAfterText(fed, p, p', line, calls, i, more);
        assert TokensOf(emitter.fed) + [] == TokensOf(emitter.fed);
      case OnToolUse(id, name, input) =>
        InlineSplit.OnlyNothing();
        assert p'.answer + "" == p'.answer;
        AnswerGrew(p.answer, ThinkingSplit.Only(p.done, false), sent, more, ThinkingSplit.AnswerOf(p.sofar));
        LineAfterTool(fed, p, p', line, calls, i, more);
        FedSnoc(emitter.fed, Tool(id, name, input));
        TokensConcat(emitter.fed, [Tool(id, name, input)]);
        TokensOfOne(Tool(id, name, input));
        MarkedCall(emitter.fed, id, name, input);
        assert (sent + more) + [] == sent + more;
        emitter.EmitTool(id, name, input);
        line' := line + AnswerChars(p.sofar) + [Called(ToolCall(id, name, input))];
    }
  }

  /** How an upstream call ends. */
  datatype End = Finished | Broken | Canceled

  datatype Attempt = Attempt(calls: seq<Callback>, end: End)

  /** The whole of an attempt was shown: the inline buffer's promise, and the answer and calls in their order. */
  ghost predicate ShowsAttempt(fed: seq<Input>, calls: seq<Callback>, source: InlineSplit.Source, thinking: bool) {
    && InlineSplit.ShowsStream(SentCalls(fed), source, thinking, Events(calls))
    && AnswerLine(fed) == ExpectedLine(calls, "")
    && TokensOf(fed) == Flushed(calls, thinking) && source == SourceOf(calls, thinking)
    && WellMarked(TokensOf(fed), false)
  }

  /** What an attempt that was not flushed has sent: all that its callbacks let go, which is a part of what is due. */
  ghost predicate ShowsSoFar(fed: seq<Input>, calls: seq<Callback>, thinking: bool) {
    && AnswerLine(fed) <= ExpectedLine(calls, "")
    && TokensOf(fed) == Arrived(calls, thinking) && OpenAfter(TokensOf(fed), false).Some?
  }

  /** Nothing the callbacks let go makes the message start. */
  ghost predicate Silent(calls: seq<Callback>, s: Settings) {
    !Stirred(s, Arrived(calls, s.thinking))
  }

  /** An attempt that leaves the client without an event: the request may be tried again. */
  ghost predicate SendsNothing(attempt: Attempt, s: Settings) {
    attempt.end == Broken && Silent(attempt.calls, s)
  }

  /**
   What an attempt's trace is worth, `fed` being what was sent of it.  A failed attempt sends nothing if
   its callbacks were silent, and otherwise all of them and the error.
   */
  ghost predicate Renders(trace: seq<Event>, attempt: Attempt, s: Settings, fed: seq<Input>,
                          source: InlineSplit.Source) {
    && Replay(trace).Some?
    && Told(Replay(trace).value) == RenderedAll(s, fed)
    && match attempt.end
       case Finished =>
         && trace != [] && trace[|trace| - 1] == MessageStop && TextIsJoined(Replay(trace).value.blocks)
         && Replay(trace).value.blocks == Layout(s, Flushed(attempt.calls, s.thinking)).Close().blocks
         && ShowsAttempt(fed, attempt.calls, source, s.thinking)
       case Broken =>
         if Silent(attempt.calls, s) then trace == [] && ShowsSoFar(fed, attempt.calls, s.thinking)
         else
           && trace != [] && trace[|trace| - 1] == ErrorEvent && TextIsJoined(Replay(trace).value.blocks)
           && Replay(trace).value.blocks == Layout(s, Flushed(attempt.calls, s.thinking)).Close().blocks
           && ShowsAttempt(fed, attempt.calls, source, s.thinking)
       case Canceled =>
         && ShowsSoFar(fed, attempt.calls, s.thinking) && (trace == [] <==> Silent(attempt.calls, s))
         && PageOf(Replay(trace).value) == Layout(s, Arrived(attempt.calls, s.thinking))
  }

  /** The flush at the end of an attempt. */
  method Release(emitter: ClaudeEmitter, inline: InlineSplit.InlineSplitter, ghost p: InlineSplit.Progress,
                 ghost line: seq<Spoken>, calls: seq<Callback>)
    requires InStep(emitter, inline, p, line, calls, |calls|)
    modifies emitter, inline
    ensures emitter.Valid() && !inline.eventThinkingOpen
    ensures ShowsAttempt(emitter.fed, calls, inline.thinkingSource, inline.thinking)
    ensures old(emitter.messageStarted) ==> emitter.messageStarted
  {
    hide ClaudeEmitter.Valid, InlineSplit.RunsTo, InlineSplit.BracketAfter, InlineSplit.AnswerCalls,
           InlineSplit.ShowsStream, LineSoFar, ThinkingSplit.Only, ThinkingSplit.Scan, TokensOf, Arrived,
           Flushed, InlineSplit.TokensBy, InlineSplit.Rest, InlineSplit.FinalSource, WellMarked;
    assert calls[..|calls|] == calls;
    ghost var fed, sent := emitter.fed, SentCalls(emitter.fed);
    AnswerSent(inline, sent, p, Events(calls), |calls|);
    var more := InlineSplit.FinishStream(inline, sent, p, Events(calls));
    StreamIsPlaced(sent + more, inline.thinkingSource, inline.thinking, Events(calls));
    InlineSplit.CallsConcat(sent, more, InlineSplit.Closed);
    FedCalls(fed, more);
    AnswerGrew(p.answer, ThinkingSplit.Only(p.done, false), sent, more, ThinkingSplit.AnswerOf(p.sofar));
    LineAtEnd(fed, p, line, calls, more);
    FlushedAtEnd(fed, calls, inline.thinking, more);
    MarkedMore(fed, more, emitter.bracket);
    emitter.SendCalls(more);
  }

  lemma StreamIsPlaced(calls: seq<InlineSplit.Call>, source: InlineSplit.Source, thinking: bool,
                       events: seq<InlineSplit.Event>)
    requires InlineSplit.ShowsStream(calls, source, thinking, events)
    ensures InlineSplit.BracketAfter(calls, InlineSplit.Closed) == InlineSplit.Closed
  {
  }

  lemma {:induction false} LineAtEnd(fed: seq<Input>, p: InlineSplit.Progress, line: seq<Spoken>, calls: seq<Callback>,
                                     more: seq<InlineSplit.Call>)
    requires LineSoFar(fed, p, line, calls, |calls|)
    requires ThinkingSplit.AnswerOf(p.sofar) == ThinkingSplit.Only(p.done, false) + InlineSplit.AnswerCalls(more)
    ensures AnswerLine(fed + SentAll(more)) == ExpectedLine(calls, "")
  {
    hide InlineSplit.AnswerCalls, ThinkingSplit.Only, AnswerLine, ThinkingSplit.AnswerOf;
    FedCalls(fed, more);
    CharsConcat<ToolCall>(ThinkingSplit.Only(p.done, false), InlineSplit.AnswerCalls(more), false);
    ConcatAssociative(line, Chars(ThinkingSplit.Only(p.done, false), false),
                      Chars(InlineSplit.AnswerCalls(more), false));
  }

  /** At any time the answer and calls sent are a part of those due. */
  lemma SentIsPrefix(inline: InlineSplit.InlineSplitter, fed: seq<Input>, p: InlineSplit.Progress,
                     line: seq<Said<ToolCall>>,
                     calls: seq<Callback>)
    requires InlineSplit.RunsTo(inline, SentCalls(fed), p, Events(calls), |calls|)
    requires LineSoFar(fed, p, line, calls, |calls|)
    ensures AnswerLine(fed) <= ExpectedLine(calls, "")
  {
    var rest := DoneIsPrefix(inline, SentCalls(fed), p, Events(calls), |calls|);
    hide InlineSplit.RunsTo, AnswerLine, ThinkingSplit.Scan, ThinkingSplit.Only;
    ThinkingSplit.OnlyConcat(p.done, rest, false);
    CharsConcat<ToolCall>(ThinkingSplit.Only(p.done, false), ThinkingSplit.Only(rest, false), false);
    assert calls[|calls|..] == [];
    ConcatAssociative(line, Chars<ToolCall>(ThinkingSplit.Only(p.done, false), false),
                      Chars<ToolCall>(ThinkingSplit.Only(rest, false), false));
  }

  lemma DoneIsPrefix(inline: InlineSplit.InlineSplitter, sent: seq<InlineSplit.Call>, p: InlineSplit.Progress,
                     events: seq<InlineSplit.Event>, i: nat)
      returns (rest: seq<ThinkingSplit.Mark>)
    requires InlineSplit.RunsTo(inline, sent, p, events, i)
    ensures ThinkingSplit.Scan(p.sofar, false) == p.done + rest
  {
    rest := ThinkingSplit.Scan(inline.textBuffer, inline.inThinkingBlock);
  }

  /** One upstream call; an attempt that breaks before it sent anything leaves no trace and may be repeated. */
  method RunAttempt(settings: Settings, attempt: Attempt)
      returns (trace: seq<Event>, ghost fed: seq<Input>, ghost source: InlineSplit.Source)
    ensures Renders(trace, attempt, settings, fed, source)
    ensures Replay(trace).Some?
    ensures attempt.end == Finished ==> trace != [] && trace[|trace| - 1] == MessageStop
    ensures attempt.end == Broken && trace != [] ==> trace[|trace| - 1] == ErrorEvent
    ensures attempt.end == Broken ==> (trace == [] <==> Silent(attempt.calls, settings))
  {
    hide ClaudeEmitter.Valid, InStep, Renders, InlineSplit.InlineSplitter.Valid, Silent;
    var emitter := new ClaudeEmitter(settings);
    var inline := new InlineSplit.InlineSplitter(settings.thinking);
    var calls := attempt.calls;
    ghost var p, line := InlineSplit.AT_START, [];
    AttemptStart(emitter, inline, calls);
    var i := 0;
    while i < |calls|
      invariant 0 <= i <= |calls| && fresh(emitter) && fresh(inline)
      invariant InStep(emitter, inline, p, line, calls, i)
    {
      p, line := Receive(emitter, inline, p, line, calls, i);
      i := i + 1;
    }
    EndAttempt(emitter, inline, p, line, attempt);
    trace, fed, source := emitter.trace, emitter.fed, inline.thinkingSource;
    RendersMeans(trace, attempt, settings, fed, source);
  }

  lemma RendersMeans(trace: seq<Event>, attempt: Attempt, s: Settings, fed: seq<Input>, source: InlineSplit.Source)
    requires Renders(trace, attempt, s, fed, source)
    ensures Replay(trace).Some?
    ensures attempt.end == Finished ==> trace != [] && trace[|trace| - 1] == MessageStop
    ensures attempt.end == Broken && trace != [] ==> trace[|trace| - 1] == ErrorEvent
    ensures attempt.end == Broken ==> (trace == [] <==> Silent(attempt.calls, s))
  {
  }

  lemma AttemptStart(emitter: ClaudeEmitter, inline: InlineSplit.InlineSplitter, calls: seq<Callback>)
    requires emitter.Valid() && emitter.settings.thinking == inline.thinking && emitter.fed == []
               && emitter.bracket == InlineSplit.Closed
    requires inline.Valid() && inline.textBuffer == "" && !inline.inThinkingBlock
               && inline.thinkingSource == InlineSplit.UnknownSource
    requires inline.Open() == InlineSplit.Closed
    ensures InStep(emitter, inline, InlineSplit.AT_START, [], calls, 0)
  {
    hide ClaudeEmitter.Valid, InlineSplit.RunsTo;
    InlineSplit.RunStart(inline, Events(calls));
    assert calls[0..] == calls && calls[..0] == [];
    InlineSplit.OnlyNothing();
    hide ThinkingSplit.Only, ExpectedLine;
    assert [] + ExpectedLine(calls, "") == ExpectedLine(calls, "");
  }

  /** After the upstream call: the answer is finished, broken off with an error, or left as it is. */
  method EndAttempt(emitter: ClaudeEmitter, inline: InlineSplit.InlineSplitter, ghost p: InlineSplit.Progress,
                    ghost line: seq<Spoken>, attempt: Attempt)
    requires InStep(emitter, inline, p, line, attempt.calls, |attempt.calls|)
    modifies emitter, inline
    ensures Renders(emitter.trace, attempt, emitter.settings, emitter.fed, inline.thinkingSource)
  {
    hide Replay, Told, RenderedAll, Agrees, InlineSplit.RunsTo, LineSoFar, TokensOf, Arrived, Stirred, Layout, Flushed,
      AnswerLine, ExpectedLine, OpenAfter, InlineSplit.ShowsStream;
    assert attempt.calls[..|attempt.calls|] == attempt.calls;
    match attempt.end {
      case Canceled =>
        SentIsPrefix(inline, emitter.fed, p, line, attempt.calls);
      case Broken =>
        if emitter.messageStarted {
          Release(emitter, inline, p, line, attempt.calls);
          if inline.eventThinkingOpen { assert false; }
          emitter.Abort();
        } else {
          SentIsPrefix(inline, emitter.fed, p, line, attempt.calls);
        }
      case Finished =>
        Release(emitter, inline, p, line, attempt.calls);
        if inline.eventThinkingOpen { assert false; }
        emitter.Finish();
    }
  }

  /**
   The retry loop: at most `budget` upstream calls, a further one only while nothing was sent.  The
   client's whole trace comes from the first attempt that does not fail in silence; without one the reply
   is a plain error.
   */
  method Handle(settings: Settings, attempts: nat -> Attempt, budget: nat)
      returns (trace: seq<Event>, served: Option<nat>, ghost fed: seq<Input>, ghost source: InlineSplit.Source)
    ensures Replay(trace).Some?
    ensures served.Some? ==> served.value < budget && Renders(trace, attempts(served.value), settings, fed, source)
    ensures served.Some? ==> !SendsNothing(attempts(served.value), settings)
    ensures forall k :: 0 <= k < (if served.Some? then served.value else budget) ==>
              SendsNothing(attempts(k), settings)
    ensures served.None? ==> trace == []
  {
    hide Silent, Renders;
    trace, served, fed, source := [], None, [], InlineSplit.UnknownSource;
    var k := 0;
    while k < budget
      invariant 0 <= k <= budget && trace == []
      invariant forall j :: 0 <= j < k ==> SendsNothing(attempts(j), settings)
    {
      trace, fed, source := RunAttempt(settings, attempts(k));
      if attempts(k).end != Broken || trace != [] {
        return trace, Some(k), fed, source;
      }
      k := k + 1;
    }
  }

  // ---------------------------------------------------------------- what the blocks say

  /**
   The client is told what the callbacks made the buffer say, character by character, with reasoning and
   calls where they came; in the format with <think> marks they stand around the stretches of reasoning,
   which are the only place for it, do not nest, and are closed at the end.
   */
  lemma TraceTellsTheCallbacks(trace: seq<Event>, attempt: Attempt, s: Settings, fed: seq<Input>,
                               source: InlineSplit.Source)
    requires Renders(trace, attempt, s, fed, source)
    ensures var tokens := if attempt.end == Canceled || SendsNothing(attempt, s) then Arrived(attempt.calls, s.thinking)
                          else Flushed(attempt.calls, s.thinking);
            && Told(Replay(trace).value) == Seen(s, tokens)
            && OpenAfter(tokens, false).Some?
            && (attempt.end != Canceled && !SendsNothing(attempt, s) ==> WellMarked(tokens, false))
            && (s.format != ThinkMarks || !s.thinking ==> Seen(s, tokens) == Seen(s, Tokens(Unmarked(tokens))))
  {
    hide Replay, Told, RenderedAll, Seen, Flushed, Arrived, AnswerLine, ExpectedLine, SourceOf,
      InlineSplit.ShowsStream, OpenAfter, TokensOf, Unmarked, Tokens, Stirred;
    AllRenderedIsSeen(s, fed);
    if s.format != ThinkMarks || !s.thinking { MarksNotSeen(s, TokensOf(fed)); }
  }

  lemma {:induction false} MarksNotSeen(s: Settings, tokens: seq<Token>)
    requires s.format != ThinkMarks || !s.thinking
    ensures Seen(s, tokens) == Seen(s, Tokens(Unmarked(tokens)))
  {
    if tokens == [] {
      assert Tokens(Unmarked(tokens)) == [];
    } else {
      MarksNotSeen(s, tokens[1..]);
      var t, rest := tokens[0], Unmarked(tokens[1..]);
      if t.Plain? {
        assert Unmarked(tokens) == [t.said] + rest;
        assert Tokens(Unmarked(tokens))[0] == t && Tokens(Unmarked(tokens))[1..] == Tokens(rest);
      } else {
        assert Unmarked(tokens) == rest;
        assert Seen(s, tokens) == [] + Seen(s, tokens[1..]);
      }
    }
  }

  /** With thinking blocks, text blocks hold the answer and thinking blocks the reasoning, whole and in order. */
  lemma {:induction false} BlocksSayTheCalls(s: Settings, fed: seq<Input>)
    requires s.format == ThinkingBlocks
    ensures SaidText(RenderedAll(s, fed), false) == InlineSplit.AnswerCalls(SentCalls(fed))
    ensures SaidText(RenderedAll(s, fed), true) ==
              if s.thinking && !s.omitDisplay then InlineSplit.ThinkingCalls(SentCalls(fed)) else ""
  {
    hide InlineSplit.AnswerCalls, InlineSplit.ThinkingCalls, SaidText, Chars;
    if fed == [] {
      InlineSplit.NoCalls();
      NothingSaid();
    } else {
      var init, x := fed[..|fed| - 1], fed[|fed| - 1];
      BlocksSayTheCalls(s, init);
      assert fed == init + [x];
      RenderedSnoc(s, init, x);
      FedSnoc(init, x);
      SaidTextConcat(RenderedAll(s, init), Rendered(s, x), false);
      SaidTextConcat(RenderedAll(s, init), Rendered(s, x), true);
      NothingSaid();
      match x
      case Tool(id, name, input) =>
        CallSaysNothing(id, name, input);
        assert SentCalls(init) + [] == SentCalls(init);
      case Sent(call) =>
        InlineSplit.CallsConcat(SentCalls(init), [call], InlineSplit.Closed);
        InlineSplit.OneCall(call, InlineSplit.Closed);
        SaidTextOfChars<ToolCall>(call.text, false, false);
        SaidTextOfChars<ToolCall>(call.text, false, true);
        SaidTextOfChars<ToolCall>(call.text, true, false);
        SaidTextOfChars<ToolCall>(call.text, true, true);
    }
  }

  lemma NothingSaid()
    ensures SaidText<ToolCall>([], false) == "" && SaidText<ToolCall>([], true) == ""
    ensures InlineSplit.AnswerCalls([]) == "" && InlineSplit.ThinkingCalls([]) == ""
  {
  }

  lemma CallSaysNothing(id: string, name: string, input: string)
    ensures SaidText([Called(ToolCall(id, name, input))], false) == ""
              && SaidText([Called(ToolCall(id, name, input))], true) == ""
  {
    NothingSaid();
    assert [Called(ToolCall(id, name, input))][..0] == [];
  }

  // ---------------------------------------------------------------- one block for a stretch of reasoning

  /** The reasoning that tokens say: the stretches that have ended, and the one under way. */
  datatype Reasoning = Reasoning(ended: seq<string>, current: string)

  function Stretches(tokens: seq<Token>): Reasoning {
    if tokens == [] then Reasoning([], "")
    else
      var r := Stretches(tokens[..|tokens| - 1]);
      match tokens[|tokens| - 1]
      case Plain(said) => if said.Thought? then r.(current := r.current + [said.ch]) else r
      case Begin => r.(current := "")
      case End => Reasoning(r.ended + [r.current], "")
  }

  /** The texts of the thinking blocks. */
  function ThinkingTexts(blocks: seq<Block>): seq<string> {
    Collect(blocks, ThinkingText)
  }

  function ThinkingText(b: Block): seq<string> {
    if b.kind.ThinkingBlock? then [b.text] else []
  }

  /** What a stretch of reasoning leaves of itself: all of it, unless it is empty or its display is left out. */
  function Left(s: Settings, stretch: string): seq<string> {
    if s.omitDisplay then [""] else if stretch == "" then [] else [stretch]
  }

  function AllLeft(s: Settings, ended: seq<string>): seq<string> {
    Collect(ended, (stretch: string) => Left(s, stretch))
  }

  /** The open block is that of the stretch under way, if one is and it has something to show. */
  predicate OpenIsCurrent(s: Settings, page: Page, open: bool, current: string) {
    if open && Left(s, current) != [] then page.open == Some(Block(ThinkingBlock, Left(s, current)[0]))
    else page.open.Some? ==> !page.open.value.kind.ThinkingBlock?
  }

  ghost predicate HoldsStretches(s: Settings, page: Page, open: bool, r: Reasoning) {
    ThinkingTexts(page.blocks) == AllLeft(s, r.ended) && OpenIsCurrent(s, page, open, r.current)
    && (!open ==> r.current == "")
  }

  lemma BlockAdded(blocks: seq<Block>, b: Block)
    ensures ThinkingTexts(blocks + [b]) == ThinkingTexts(blocks) + ThinkingText(b)
  {
    CollectConcat(blocks, [b], ThinkingText);
    CollectOne(b, ThinkingText);
  }

  lemma StretchEnded(s: Settings, ended: seq<string>, stretch: string)
    ensures AllLeft(s, ended + [stretch]) == AllLeft(s, ended) + Left(s, stretch)
  {
    CollectConcat(ended, [stretch], (stretch: string) => Left(s, stretch));
    CollectOne(stretch, (stretch: string) => Left(s, stretch));
  }

  /** Closing the open block brings no thinking block unless it is one. */
  lemma ClosedTexts(page: Page)
    ensures ThinkingTexts(page.Close().blocks) == ThinkingTexts(page.blocks) +
              if page.open.Some? then ThinkingText(page.open.value) else []
  {
    hide ThinkingTexts;
    if page.open.Some? { BlockAdded(page.blocks, page.open.value); }
  }

  lemma GrownByNothing(page: Page)
    requires page.open.Some?
    ensures page.Grow(page.open.value.kind, "") == page
  {
    assert page.open.value.text + "" == page.open.value.text;
  }

  lemma PutKeepsStretches(s: Settings, page: Page, open: bool, r: Reasoning, t: Token)
    requires s.thinking && s.format == ThinkingBlocks && HoldsStretches(s, page, open, r)
    requires if t.Plain? then t.said.Thought? == open else t.Begin? != open
    ensures var next := match t case Plain(said) => if said.Thought? then r.(current := r.current + [said.ch]) else r
                        case Begin => r.(current := "") case End => Reasoning(r.ended + [r.current], "");
            HoldsStretches(s, Put(s, page, t), if t.Begin? then true else if t.End? then false else open, next)
  {
    hide ThinkingTexts, AllLeft;
    ClosedTexts(page);
    assert ThinkingTexts(page.blocks) + [] == ThinkingTexts(page.blocks);
    if t.End? {
      StretchEnded(s, r.ended, r.current);
      assert AllLeft(s, r.ended) + [] == AllLeft(s, r.ended);
      if s.omitDisplay {
        assert Left(s, r.current)[0] == "" && page.open == Some(Block(ThinkingBlock, ""));
        GrownByNothing(page);
      }
    } else if t.Plain? && t.said.Thought? {
      assert r.current == "" ==> r.current + [t.said.ch] == [t.said.ch];
    } else if t.Plain? && t.said.Called? {
      BlockAdded(page.Close().blocks, Block(ToolBlock(t.said.call.id, t.said.call.name), t.said.call.input));
    }
  }

  lemma {:induction false} LayoutHoldsStretches(s: Settings, tokens: seq<Token>, open: bool)
    requires s.thinking && s.format == ThinkingBlocks && WellMarked(tokens, open)
    ensures HoldsStretches(s, Layout(s, tokens), open, Stretches(tokens))
  {
    if tokens == [] {
      assert ThinkingTexts([]) == [] == AllLeft(s, []);
    } else {
      var init, last := tokens[..|tokens| - 1], tokens[|tokens| - 1];
      assert tokens == init + [last] && [last][1..] == [];
      OpenAfterConcat(init, [last], false);
      var before := OpenAfter(init, false).value;
      hide HoldsStretches, Put;
      LayoutHoldsStretches(s, init, before);
      PutKeepsStretches(s, Layout(s, init), before, Stretches(init), last);
    }
  }

  /**
   Where reasoning has blocks of its own there is one for each stretch of it, in order, with all of its text
   and nothing else; a stretch without text has none, and where the display is left out each has one, empty.
   */
  lemma OneBlockForEachStretch(trace: seq<Event>, attempt: Attempt, s: Settings, fed: seq<Input>,
                               source: InlineSplit.Source)
    requires Renders(trace, attempt, s, fed, source) && s.thinking && s.format == ThinkingBlocks
    requires attempt.end != Canceled && !SendsNothing(attempt, s)
    ensures var stretches := Stretches(Flushed(attempt.calls, true));
            && stretches.current == ""
            && ThinkingTexts(Replay(trace).value.blocks)
               == Collect(stretches.ended, (stretch: string) => Left(s, stretch))
  {
    hide Replay, Told, RenderedAll, Flushed, Arrived, AnswerLine, ExpectedLine, SourceOf, InlineSplit.ShowsStream,
      OpenAfter, TokensOf, Stirred, ThinkingTexts, Layout, Stretches;
    var tokens := Flushed(attempt.calls, true);
    LayoutHoldsStretches(s, tokens, false);
    ClosedTexts(Layout(s, tokens));
    assert ThinkingTexts(Layout(s, tokens).blocks) + [] == ThinkingTexts(Layout(s, tokens).blocks);
  }

  ghost predicate TextIsFull(blocks: seq<Block>) {
    forall b :: b in blocks && b.kind.TextBlock? ==> b.text != ""
  }

  lemma {:induction false} LayoutIsFull(s: Settings, tokens: seq<Token>)
    ensures TextIsFull(Layout(s, tokens).Close().blocks)
  {
    if tokens != [] {
      LayoutIsFull(s, tokens[..|tokens| - 1]);
      PutIsFull(s, Layout(s, tokens[..|tokens| - 1]), tokens[|tokens| - 1]);
    }
  }

  lemma PutIsFull(s: Settings, page: Page, t: Token)
    requires TextIsFull(page.Close().blocks)
    ensures TextIsFull(Put(s, page, t).Close().blocks)
  {
    assert page.open.Some? ==> page.open.value in page.Close().blocks;
    assert forall b :: b in page.blocks ==> b in page.Close().blocks;
  }

  /** No text block of a reply is empty, and no two follow one another. */
  lemma TextBlocksAreWhole(trace: seq<Event>, attempt: Attempt, s: Settings, fed: seq<Input>,
                           source: InlineSplit.Source)
    requires Renders(trace, attempt, s, fed, source) && attempt.end != Canceled
    ensures TextIsFull(Replay(trace).value.blocks) && TextIsJoined(Replay(trace).value.blocks)
  {
    hide Layout, Told, RenderedAll, ShowsAttempt, ShowsSoFar, Silent, TextIsFull;
    LayoutIsFull(s, Flushed(attempt.calls, s.thinking));
    NoBlocks();
  }

  lemma NoBlocks()
    ensures Replay([]) == Some(NEW_CLIENT) && TextIsFull([]) && TextIsJoined([])
  {
  }
}
