/**
 What a client of the Claude stream sees (proxy/handler.go, handleClaudeStream), and the reader it is
 judged by: `Accept` takes one event at a time and refuses any that breaks the protocol.
 */
module ClaudeClient {
  import opened Text
  import opened Speech

  datatype BlockKind = TextBlock | ThinkingBlock | ToolBlock(id: string, name: string)

  datatype DeltaKind = TextDelta | ThinkingDelta | InputJsonDelta

  datatype Block = Block(kind: BlockKind, text: string)

  datatype Event =
    | MessageStart
    | BlockStart(index: nat, kind: BlockKind)
    | BlockDelta(index: nat, delta: DeltaKind, text: string)
    | BlockStop(index: nat)
    | MessageDelta
    | MessageStop
    | ErrorEvent

  datatype Stage = NotStarted | Running | Stopping | Ended

  /** What the client holds: the finished content blocks and the one that is open. */
  datatype Client = Client(stage: Stage, blocks: seq<Block>, open: Option<Block>)

  const NEW_CLIENT := Client(NotStarted, [], None)

  function DeltaFor(kind: BlockKind): DeltaKind {
    match kind
    case TextBlock => TextDelta
    case ThinkingBlock => ThinkingDelta
    case ToolBlock(_, _) => InputJsonDelta
  }

  /**
   One event.  The message starts once; blocks come one at a time with the next index; a delta is of
   the open block's type; the message stops, or fails, only between blocks.
   */
  function Accept(c: Client, e: Event): Option<Client> {
    match e
    case MessageStart =>
      if c.stage == NotStarted then Some(Client(Running, c.blocks, c.open)) else None
    case BlockStart(index, kind) =>
      if c.stage == Running && c.open.None? && index == |c.blocks|
          then Some(Client(Running, c.blocks, Some(Block(kind, "")))) else None
    case BlockDelta(index, delta, text) =>
      if c.stage == Running && c.open.Some? && index == |c.blocks| && delta == DeltaFor(c.open.value.kind)
      then Some(Client(Running, c.blocks, Some(Block(c.open.value.kind, c.open.value.text + text)))) else None
    case BlockStop(index) =>
      if c.stage == Running && c.open.Some? && index == |c.blocks|
          then Some(Client(Running, c.blocks + [c.open.value], None)) else None
    case MessageDelta =>
      if c.stage == Running && c.open.None? then Some(Client(Stopping, c.blocks, None)) else None
    case MessageStop =>
      if c.stage == Stopping then Some(Client(Ended, c.blocks, c.open)) else None
    case ErrorEvent =>
      if c.stage == Running && c.open.None? then Some(Client(Ended, c.blocks, None)) else None
  }

  /** The client after a trace, unless some event was out of order. */
  function Replay(trace: seq<Event>): Option<Client> {
    if trace == [] then Some(NEW_CLIENT)
    else
      var before := Replay(trace[..|trace| - 1]);
      if before.None? then None else Accept(before.value, trace[|trace| - 1])
  }

  lemma ReplaySnoc(trace: seq<Event>, e: Event)
    requires Replay(trace).Some?
    ensures Replay(trace + [e]) == Accept(Replay(trace).value, e)
  {
    hide Accept;
    assert (trace + [e])[..|trace|] == trace;
  }

  // ---------------------------------------------------------------- what was said, in order

  datatype ToolCall = ToolCall(id: string, name: string, input: string)

  type Spoken = Said<ToolCall>

  function BlockSaid(b: Block): seq<Spoken> {
    match b.kind
    case TextBlock => Chars(b.text, false)
    case ThinkingBlock => Chars(b.text, true)
    case ToolBlock(id, name) => [Called(ToolCall(id, name, b.text))]
  }

  function Transcript(blocks: seq<Block>): seq<Spoken> {
    if blocks == [] then [] else Transcript(blocks[..|blocks| - 1]) + BlockSaid(blocks[|blocks| - 1])
  }

  /** What the client was told so far, the open block's text included; a call counts once it is complete. */
  function Told(c: Client): seq<Spoken> {
    Transcript(c.blocks) + (if c.open.Some? && !c.open.value.kind.ToolBlock? then BlockSaid(c.open.value) else [])
  }

  /** Text that was not interrupted is in one block. */
  predicate TextIsJoined(blocks: seq<Block>) {
    forall i :: 0 < i < |blocks| ==> !(blocks[i - 1].kind.TextBlock? && blocks[i].kind.TextBlock?)
  }

  predicate EndsWithText(blocks: seq<Block>) {
    blocks != [] && blocks[|blocks| - 1].kind.TextBlock?
  }

  // ---------------------------------------------------------------- the blocks themselves

  /** What a client holds of an answer: its finished blocks, and the one that is open. */
  datatype Page = Page(blocks: seq<Block>, open: Option<Block>) {
    function Close(): Page {
      if open.Some? then Page(blocks + [open.value], None) else this
    }

    /** More text of a kind: into the open block if it is of that kind, else into a new one. */
    function Grow(kind: BlockKind, text: string): Page {
      if open.Some? && open.value.kind == kind then Page(blocks, Some(Block(kind, open.value.text + text)))
      else Page(Close().blocks, Some(Block(kind, text)))
    }

    function Call(call: ToolCall): Page {
      Page(Close().blocks + [Block(ToolBlock(call.id, call.name), call.input)], None)
    }
  }

  function PageOf(c: Client): Page {
    Page(c.blocks, c.open)
  }

  lemma GrowTwice(page: Page, kind: BlockKind, a: string, b: string)
    ensures page.Grow(kind, a).Grow(kind, b) == page.Grow(kind, a + b)
  {
    if page.open.Some? { ConcatAssociative(page.open.value.text, a, b); }
  }

  lemma DeltaTells(c: Client, index: nat, delta: DeltaKind, text: string)
    requires Accept(c, BlockDelta(index, delta, text)).Some?
    ensures var after := Accept(c, BlockDelta(index, delta, text)).value;
            Told(after) == Told(c) + match delta case TextDelta => Chars(text, false)
                case ThinkingDelta => Chars(text, true) case InputJsonDelta => []
  {
    hide Transcript;
    CharsConcat<ToolCall>(c.open.value.text, text, false);
    CharsConcat<ToolCall>(c.open.value.text, text, true);
    hide Chars;
    ConcatAssociative(Transcript(c.blocks), Chars(c.open.value.text, false), Chars(text, false));
    ConcatAssociative(Transcript(c.blocks), Chars(c.open.value.text, true), Chars(text, true));
  }

  lemma BlockStopTells(c: Client, index: nat)
    requires Accept(c, BlockStop(index)).Some?
    ensures Told(Accept(c, BlockStop(index)).value) == Told(c) +
              match c.open.value.kind case ToolBlock(id, name) => [Called(ToolCall(id, name, c.open.value.text))]
                  case _ => []
  {
    var blocks := c.blocks + [c.open.value];
    assert blocks[..|blocks| - 1] == c.blocks;
    hide Chars;
  }

  lemma OtherTells(c: Client, e: Event)
    requires Accept(c, e).Some? && !e.BlockDelta? && !e.BlockStop?
    ensures Told(Accept(c, e).value) == Told(c)
  {
    hide Transcript;
    CharsConcat<ToolCall>("", "", false);
    CharsConcat<ToolCall>("", "", true);
  }
}
