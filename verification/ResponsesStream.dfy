/**
 The Responses stream emitter (proxy/responses_api.go, handleOpenAIResponsesStream): how upstream
 callbacks become numbered output items.  Every trace it sends is one the reader of ResponsesClient
 accepts, and what the items say in the end is what ResponsesInput keeps of what came in.
 */
module ResponsesStream {
  import opened Text
  import opened Speech
  import opened ThinkingSplit
  import InlineSplit
  import opened ResponsesClient
  import opened ResponsesInput

  // ---------------------------------------------------------------- the emitter's records

  /** The current item of a kind: messageItemID, messageAdded, messageDone and so on. */
  datatype Slot = Slot(kind: Kind, id: Id, added: bool, done: bool, index: int, text: string) {
    predicate IsOpen() { added && !done }
    function AsItem(): Item { Item(id, kind, text) }
  }

  /**
   The client agrees with the emitter's own records; `a` and `b` are the message and the reasoning slot,
   either way round.
   */
  ghost predicate Agrees(client: Client, started: bool, a: Slot, b: Slot, next: nat, outputItems: seq<Option<Item>>,
                         uuids: nat) {
    && client.progress == (if started then Running else NotStarted)
    && HasPart(a.kind) && HasPart(b.kind)
    && !(a.IsOpen() && b.IsOpen())
    && client.open == (if a.IsOpen() then OpenSlot(a) else if b.IsOpen() then OpenSlot(b) else None)
    && (a.IsOpen() ==> a.index == |client.items|) && (b.IsOpen() ==> b.index == |client.items|)
    && (!started ==> client.items == [] && client.open == None)
    && next == |outputItems| == |client.items| + (if client.open.Some? then 1 else 0)
    && (forall i :: 0 <= i < |client.items| ==> outputItems[i] == Some(client.items[i]))
    && SlotsAreFresh(client.items, a, b, uuids)
    && SlotIsTidy(a) && SlotIsTidy(b)
  }

  function OpenSlot(a: Slot): Option<OpenItem> {
    if a.index >= 0 then Some(OpenItem(a.index, a.AsItem(), InPart)) else None
  }

  predicate SlotIsTidy(a: Slot) {
    (a.done ==> a.added) && (!a.added ==> a.text == "")
  }

  /** The slots' ids are different made-up ones, and unused as long as their item was not announced. */
  ghost predicate SlotsAreFresh(items: seq<Item>, a: Slot, b: Slot, uuids: nat) {
    && a.id.Generated? && a.id.n < uuids && b.id.Generated? && b.id.n < uuids && a.id != b.id
    && (forall i :: 0 <= i < |items| && items[i].id.Generated? ==> items[i].id.n < uuids)
    && (forall i :: 0 <= i < |items| ==> (!a.added ==> items[i].id != a.id) && (!b.added ==> items[i].id != b.id))
  }

  lemma AgreesEitherWay(client: Client, started: bool, a: Slot, b: Slot, next: nat, outputItems: seq<Option<Item>>,
                        uuids: nat)
    requires Agrees(client, started, a, b, next, outputItems, uuids)
    ensures Agrees(client, started, b, a, next, outputItems, uuids)
  {
  }

  /** The slot after its closed item is given up: it gets an id of its own. */
  function Renewed(a: Slot, uuids: nat): Slot {
    if a.done then Slot(a.kind, Generated(uuids), a.added, false, a.index, "") else a
  }

  lemma NothingOpen(client: Client, started: bool, a: Slot, b: Slot, next: nat, outputItems: seq<Option<Item>>,
                    uuids: nat)
    requires Agrees(client, started, a, b, next, outputItems, uuids) && !a.IsOpen() && !b.IsOpen()
    ensures client.open == None && next == |outputItems| == |client.items| && !Used(client.items, Renewed(a, uuids).id)
    ensures HasPart(a.kind) && client.progress == (if started then Running else NotStarted)
  {
  }

  /** Announcing the slot's item, which is a new one if the last was closed. */
  lemma AnnouncedAgrees(client: Client, a: Slot, b: Slot, next: nat, outputItems: seq<Option<Item>>, uuids: nat)
    requires Agrees(client, true, a, b, next, outputItems, uuids) && !a.IsOpen() && !b.IsOpen()
    ensures var r := Renewed(a, uuids);
            Agrees(Client(Running, client.items, Some(OpenItem(next, Item(r.id, a.kind, ""), InPart))), true,
                   Slot(a.kind, r.id, true, false, next, r.text), b, next + 1,
                       outputItems + [Some(Item(r.id, a.kind, ""))], if a.done then uuids + 1 else uuids)
  {
  }

  lemma OpenIs(client: Client, started: bool, a: Slot, b: Slot, next: nat, outputItems: seq<Option<Item>>, uuids: nat)
    requires Agrees(client, started, a, b, next, outputItems, uuids) && a.IsOpen()
    ensures !b.IsOpen() && started && client.progress == Running && HasPart(a.kind)
    ensures a.index >= 0 && client.open == Some(OpenItem(a.index, a.AsItem(), InPart)) && a.index < |outputItems|
  {
  }

  /** Closing it. */
  lemma ClosedAgrees(client: Client, a: Slot, b: Slot, next: nat, outputItems: seq<Option<Item>>, uuids: nat)
    requires Agrees(client, true, a, b, next, outputItems, uuids) && a.IsOpen() && 0 <= a.index < |outputItems|
    ensures Agrees(Client(Running, client.items + [a.AsItem()], None), true, a.(done := true), b, next,
                   outputItems[a.index := Some(a.AsItem())], uuids)
  {
  }

  /** A delta for it. */
  lemma GrownAgrees(client: Client, a: Slot, b: Slot, next: nat, outputItems: seq<Option<Item>>, uuids: nat,
                    text: string)
    requires Agrees(client, true, a, b, next, outputItems, uuids) && a.IsOpen() && a.index >= 0
    ensures Agrees(Client(Running, client.items, Some(OpenItem(a.index, Item(a.id, a.kind, a.text + text), InPart))),
                   true,
                   a.(text := a.text + text), b, next, outputItems, uuids)
  {
  }

  lemma StartedAgrees(client: Client, a: Slot, b: Slot, next: nat, outputItems: seq<Option<Item>>, uuids: nat)
    requires Agrees(client, false, a, b, next, outputItems, uuids)
    ensures client.progress == NotStarted
    ensures Agrees(Client(Running, client.items, client.open), true, a, b, next, outputItems, uuids)
  {
  }

  /** A call takes an index of its own and is closed at once. */
  lemma CallAgrees(client: Client, a: Slot, b: Slot, next: nat, outputItems: seq<Option<Item>>, uuids: nat, call: Item)
    requires Agrees(client, true, a, b, next, outputItems, uuids) && !a.IsOpen() && !b.IsOpen() && call.id.FromUpstream?
    ensures Agrees(Client(Running, client.items + [call], None), true, a, b, next + 1, outputItems + [Some(call)],
                   uuids)
  {
  }

  // ---------------------------------------------------------------- the emitter

  class ResponsesEmitter {
    const thinking: bool
    var trace: seq<Event>
    var started: bool
    var sawVisibleText: bool
    var sawReasoningText: bool
    var thinkingSource: InlineSplit.Source
    var contentBuilder: string
    var reasoningBuilder: string
    var toolUses: seq<Item>
    var message: Slot
    var reasoning: Slot
    var nextOutputIndex: nat
    var outputItems: seq<Option<Item>>
    /** How many ids were made up so far. */
    var uuids: nat

    /** The client after the trace, and what came in so far. */
    ghost var client: Client
    ghost var raw: seq<Raw>

    ghost predicate Shape()
      reads this`trace, this`client, this`started, this`message, this`reasoning, this`nextOutputIndex,
            this`outputItems, this`uuids
    {
      && Replay(trace) == Some(client) && (!started ==> trace == [])
      && message.kind == Message && reasoning.kind == Reasoning
      && Agrees(client, started, message, reasoning, nextOutputIndex, outputItems, uuids)
    }

    /** The client was told what it should be told. */
    ghost predicate Content(source: InlineSplit.Source)
      reads this
    {
      && Told(client) == Kept(raw, thinking)
      && GateAfter(raw, thinking) == Gate(sawVisibleText, sawReasoningText, source)
      && contentBuilder == ToldText(client)
      && (contentBuilder != "" <==> message.added) && (reasoningBuilder != "" <==> reasoning.added)
      && Known()
      && (client.open.Some? <==> EndsInText(Kept(raw, thinking)))
    }

    /** The items are laid out as what was told asks for. */
    ghost predicate LaidOut()
      reads this`client, this`raw
    {
      PageOf(client) == Lay(Kept(raw, thinking))
    }

    lemma IsLaidOut(said: seq<Spoken>, delta: string, thought: bool)
      requires Kept(raw, thinking) == said + Chars(delta, thought) && delta != ""
      requires PageOf(client) == Lay(said).Grow(if thought then Reasoning else Message, delta)
      ensures LaidOut()
    {
      LayChars(said, delta, thought);
    }

    /** Whether there is a message, and a call, among the items is as recorded. */
    ghost predicate Known()
      reads this`client, this`message, this`toolUses
    {
      KindsAreKnown(client.items, message.added, toolUses != [])
    }

    /** Something was sent exactly if something was told. */
    ghost predicate Telling()
      reads this
    {
      started <==> Kept(raw, thinking) != []
    }

    ghost predicate Valid()
      reads this
    {
      Shape() && Content(thinkingSource) && LaidOut()
    }

    constructor (thinking: bool)
      ensures Valid() && Telling() && this.thinking == thinking && trace == [] && raw == [] && !started
                && toolUses == []
    {
      this.thinking := thinking;
      trace, started, sawVisibleText, sawReasoningText, thinkingSource :=
          [], false, false, false, InlineSplit.UnknownSource;
      contentBuilder, reasoningBuilder, toolUses := "", "", [];
      message := Slot(Message, Generated(0), false, false, -1, "");
      reasoning := Slot(Reasoning, Generated(1), false, false, -1, "");
      nextOutputIndex, outputItems, uuids := 0, [], 2;
      client, raw := NEW_CLIENT, [];
    }

    /** The open item is the open slot's. */
    lemma OpenPart()
      requires Shape()
      ensures PageOf(client).Writes(Message) <==> message.IsOpen()
      ensures PageOf(client).Writes(Reasoning) <==> reasoning.IsOpen()
      ensures !message.IsOpen() && !reasoning.IsOpen() ==> PageOf(client).Close() == PageOf(client)
      ensures !(message.IsOpen() && reasoning.IsOpen())
    {
    }

    /** sendResponsesSSE: an event the client must be ready for. */
    method Send(e: Event)
      requires Replay(trace) == Some(client) && Accept(client, e).Some?
      modifies this`trace, this`client
      ensures Replay(trace) == Some(client) && client == Accept(old(client), e).value && trace == old(trace) + [e]
      ensures Told(client) == Told(old(client)) + Says(e) && ToldText(client) == ToldText(old(client)) + SaysText(e)
    {
      EventTells(client, e);
      hide Accept, Told, ToldText;
      ReplaySnoc(trace, e);
      trace := trace + [e];
      client := Replay(trace).value;
    }

    /** Announces a message or a reasoning item. */
    method Announce(index: nat, id: Id, kind: Kind)
      requires Replay(trace) == Some(client) && client.progress == Running && client.open == None
      requires index == |client.items| && HasPart(kind) && !Used(client.items, id)
      modifies this`trace, this`client
      ensures Replay(trace) == Some(client)
      ensures client == Client(Running, old(client.items), Some(OpenItem(index, Item(id, kind, ""), InPart)))
      ensures Told(client) == Told(old(client)) && ToldText(client) == ToldText(old(client))
    {
      hide Told, ToldText, Replay;
      Send(ItemAdded(index, id, kind));
      Send(PartAdded(index, id, kind));
    }

    /** Closes it: the text, the part and the item as recorded. */
    method Close(index: nat, id: Id, kind: Kind, text: string, item: Option<Item>)
      requires Replay(trace) == Some(client) && client.progress == Running && HasPart(kind)
      requires client.open == Some(OpenItem(index, Item(id, kind, text), InPart)) && item == Some(Item(id, kind, text))
      modifies this`trace, this`client
      ensures Replay(trace) == Some(client)
      ensures client == Client(Running, old(client.items) + [Item(id, kind, text)], None)
      ensures Told(client) == Told(old(client)) && ToldText(client) == ToldText(old(client))
    {
      hide Told, ToldText, Replay;
      Send(TextDone(index, id, kind, text));
      Send(PartDone(index, id, kind, text));
      Send(ItemDone(index, item.value));
    }

    method EnsureStarted()
      requires Shape()
      modifies this`trace, this`client, this`started
      ensures Shape() && started && client.items == old(client).items && client.open == old(client).open
      ensures PageOf(client) == PageOf(old(client))
      ensures Told(client) == Told(old(client)) && ToldText(client) == ToldText(old(client))
    {
      if started { return; }
      hide Told, ToldText, Replay, Agrees, PageOf;
      StartedAgrees(client, message, reasoning, nextOutputIndex, outputItems, uuids);
      Send(Created);
      started := true;
      SamePage(old(client), client);
    }

    /** reserveOutputItem. */
    method ReserveOutputItem(index: nat, item: Item)
      requires index <= |outputItems|
      modifies this`outputItems
      ensures outputItems == if index == |old(outputItems)| then old(outputItems) + [Some(item)]
                else old(outputItems)[index := Some(item)]
    {
      while |outputItems| <= index
        invariant |old(outputItems)| <= |outputItems| <= |old(outputItems)| + 1
        invariant |outputItems| == |old(outputItems)| ==> outputItems == old(outputItems)
        invariant |outputItems| > |old(outputItems)| ==>
                    index == |old(outputItems)| && outputItems == old(outputItems) + [None]
      {
        outputItems := outputItems + [None];
      }
      outputItems := outputItems[index := Some(item)];
    }

    method EnsureReasoningAdded()
      requires Shape() && !message.IsOpen()
      modifies this`trace, this`client, this`started, this`reasoning, this`nextOutputIndex, this`outputItems, this`uuids
      ensures Shape() && started && reasoning.IsOpen()
      ensures Told(client) == Told(old(client)) && ToldText(client) == ToldText(old(client))
                && client.items == old(client).items
      ensures if old(reasoning).IsOpen() then client.open == old(client).open
              else Opened(old(client), client, Reasoning)
    {
      hide Told, ToldText, Replay, Accept, Agrees, Used;
      EnsureStarted();
      if reasoning.added && !reasoning.done { return; }
      AgreesEitherWay(client, started, message, reasoning, nextOutputIndex, outputItems, uuids);
      NothingOpen(client, started, reasoning, message, nextOutputIndex, outputItems, uuids);
      AnnouncedAgrees(client, reasoning, message, nextOutputIndex, outputItems, uuids);
      if reasoning.done {
        reasoning := Slot(Reasoning, Generated(uuids), reasoning.added, false, reasoning.index, "");
        uuids := uuids + 1;
      }
      reasoning := reasoning.(index := nextOutputIndex);
      nextOutputIndex := nextOutputIndex + 1;
      ReserveOutputItem(reasoning.index, Item(reasoning.id, Reasoning, ""));
      Announce(reasoning.index, reasoning.id, Reasoning);
      reasoning := reasoning.(added := true);
      AgreesEitherWay(client, started, reasoning, message, nextOutputIndex, outputItems, uuids);
    }

    method FinishReasoning()
      requires Shape()
      modifies this`trace, this`client, this`reasoning, this`outputItems
      ensures Shape() && !reasoning.IsOpen() && reasoning.added == old(reasoning).added
      ensures Told(client) == Told(old(client)) && ToldText(client) == ToldText(old(client))
      ensures client.items == old(client).items + (if old(reasoning).IsOpen() then [old(reasoning).AsItem()] else [])
      ensures PageOf(client) == if old(reasoning).IsOpen() then PageOf(old(client)).Close() else PageOf(old(client))
      ensures old(Known()) ==> Known()
    {
      if !reasoning.added || reasoning.done { return; }
      ReasoningIsReasoning();
      if Known() { KindsSnoc(client.items, reasoning.AsItem(), message.added, toolUses != []); }
      hide *;
      CloseReasoning();
    }

    method CloseReasoning()
      requires Shape() && reasoning.IsOpen()
      modifies this`trace, this`client, this`reasoning, this`outputItems
      ensures Shape() && !reasoning.IsOpen() && reasoning.added == old(reasoning).added
      ensures Told(client) == Told(old(client)) && ToldText(client) == ToldText(old(client))
      ensures client.items == old(client).items + [old(reasoning).AsItem()]
      ensures PageOf(client) == PageOf(old(client)).Close()
    {
      hide Told, ToldText, Replay, Accept, Agrees, PageOf, Page.Close;
      AgreesEitherWay(client, started, message, reasoning, nextOutputIndex, outputItems, uuids);
      OpenIs(client, started, reasoning, message, nextOutputIndex, outputItems, uuids);
      ClosedAgrees(client, reasoning, message, nextOutputIndex, outputItems, uuids);
      reasoning := reasoning.(done := true);
      var text := reasoning.text;
      ReserveOutputItem(reasoning.index, Item(reasoning.id, Reasoning, text));
      Close(reasoning.index, reasoning.id, Reasoning, text, outputItems[reasoning.index]);
      PageClosed(old(client), client);
      AgreesEitherWay(client, started, reasoning, message, nextOutputIndex, outputItems, uuids);
    }

    method EnsureMessageAdded()
      requires Shape() && !reasoning.IsOpen()
      modifies this`trace, this`client, this`started, this`message, this`nextOutputIndex, this`outputItems, this`uuids
      ensures Shape() && started && message.IsOpen()
      ensures Told(client) == Told(old(client)) && ToldText(client) == ToldText(old(client))
                && client.items == old(client).items
      ensures if old(message).IsOpen() then client.open == old(client).open else Opened(old(client), client, Message)
    {
      hide Told, ToldText, Replay, Accept, Agrees, Used;
      EnsureStarted();
      if message.added && !message.done { return; }
      NothingOpen(client, started, message, reasoning, nextOutputIndex, outputItems, uuids);
      AnnouncedAgrees(client, message, reasoning, nextOutputIndex, outputItems, uuids);
      if message.done {
        message := Slot(Message, Generated(uuids), message.added, false, message.index, "");
        uuids := uuids + 1;
      }
      message := message.(index := nextOutputIndex);
      nextOutputIndex := nextOutputIndex + 1;
      ReserveOutputItem(message.index, Item(message.id, Message, ""));
      Announce(message.index, message.id, Message);
      message := message.(added := true);
    }

    method FinishMessage()
      requires Shape()
      modifies this`trace, this`client, this`message, this`outputItems
      ensures Shape() && !message.IsOpen() && message.added == old(message).added
      ensures Told(client) == Told(old(client)) && ToldText(client) == ToldText(old(client))
      ensures client.items == old(client).items + (if old(message).IsOpen() then [old(message).AsItem()] else [])
      ensures PageOf(client) == if old(message).IsOpen() then PageOf(old(client)).Close() else PageOf(old(client))
      ensures old(Known()) ==> Known()
    {
      if !message.added || message.done { return; }
      ReasoningIsReasoning();
      if Known() { KindsSnoc(client.items, message.AsItem(), message.added, toolUses != []); }
      hide *;
      CloseMessage();
    }

    method CloseMessage()
      requires Shape() && message.IsOpen()
      modifies this`trace, this`client, this`message, this`outputItems
      ensures Shape() && !message.IsOpen() && message.added == old(message).added
      ensures Told(client) == Told(old(client)) && ToldText(client) == ToldText(old(client))
      ensures client.items == old(client).items + [old(message).AsItem()]
      ensures PageOf(client) == PageOf(old(client)).Close()
    {
      hide Told, ToldText, Replay, Accept, Agrees, PageOf, Page.Close;
      OpenIs(client, started, message, reasoning, nextOutputIndex, outputItems, uuids);
      ClosedAgrees(client, message, reasoning, nextOutputIndex, outputItems, uuids);
      message := message.(done := true);
      var text := message.text;
      ReserveOutputItem(message.index, Item(message.id, Message, text));
      Close(message.index, message.id, Message, text, outputItems[message.index]);
      PageClosed(old(client), client);
    }

    /** Part of the answer: blanks before its first visible character are dropped. */
    method EmitTextDelta(text: string)
      requires Valid() && text != ""
      modifies this
      ensures Valid() && raw == old(raw) + RawChars(text, Answers) && toolUses == old(toolUses)
      ensures (old(started) ==> started) && (old(Telling()) ==> Telling())
    {
      hide Told, ToldText, Replay, Agrees, Kept, GateAfter, LeadTrim, KindsAreKnown, EndsInText;
      KeptChars(raw, text, Answers, thinking);
      var delta := text;
      if !sawVisibleText {
        delta := LeadTrim(text);
        if delta == "" {
          assert Kept(raw + RawChars(text, Answers), thinking) == Kept(raw, thinking);
          raw := raw + RawChars(text, Answers);
          return;
        }
      }
      SayText(text, delta);
      IsLaidOut(old(Kept(raw, thinking)), delta, false);
    }

    /** What is left of a text is part of the answer. */
    method SayText(ghost text: string, delta: string)
      requires Shape() && Content(thinkingSource) && delta != ""
      requires Kept(raw + RawChars(text, Answers), thinking) == Kept(raw, thinking) + Chars(delta, false)
      requires GateAfter(raw + RawChars(text, Answers), thinking) == Passed(GateAfter(raw, thinking), Answers, true)
      modifies this
      ensures Shape() && Content(thinkingSource) && raw == old(raw) + RawChars(text, Answers)
      ensures toolUses == old(toolUses) && started && Telling()
      ensures PageOf(client) == PageOf(old(client)).Grow(Message, delta)
    {
      hide Told, ToldText, Replay, Accept, Agrees, Kept, GateAfter, KindsAreKnown, EndsInText, Chars, RawChars,
        Slot.IsOpen;
      EndsInTextAfter(Kept(raw, thinking), delta, false);
      hide Shape, Known, Lay, PageOf, Page.Grow, Page.Close, Page.Writes;
      sawVisibleText := true;
      contentBuilder := contentBuilder + delta;
      ShowText(delta);
      raw := raw + RawChars(text, Answers);
    }

    method EnsureMessageKnown()
      requires Shape() && !reasoning.IsOpen() && Known()
      modifies this`trace, this`client, this`started, this`message, this`nextOutputIndex, this`outputItems, this`uuids
      ensures Shape() && started && message.IsOpen() && message.added && Known()
      ensures Told(client) == Told(old(client)) && ToldText(client) == ToldText(old(client))
      ensures PageOf(client) == PageOf(old(client)).Grow(Message, "")
    {
      KnownWithMessage(client.items, message.added, toolUses != []);
      OpenPart();
      hide KindsAreKnown, Agrees, Told, ToldText, PageOf, Page.Grow, Page.Writes, Page.Close;
      EnsureMessageAdded();
      if old(message).IsOpen() {
        SamePage(old(client), client);
        GrowNothing(PageOf(client), Message);
      } else {
        PageOpened(old(client), client, Message);
      }
    }

    method EnsureReasoningKnown()
      requires Shape() && !message.IsOpen() && Known()
      modifies this`trace, this`client, this`started, this`reasoning, this`nextOutputIndex, this`outputItems, this`uuids
      ensures Shape() && started && reasoning.IsOpen() && Known()
      ensures Told(client) == Told(old(client)) && ToldText(client) == ToldText(old(client))
      ensures PageOf(client) == PageOf(old(client)).Grow(Reasoning, "")
    {
      OpenPart();
      hide KindsAreKnown, Agrees, Told, ToldText, PageOf, Page.Grow, Page.Writes, Page.Close;
      EnsureReasoningAdded();
      if old(reasoning).IsOpen() {
        SamePage(old(client), client);
        GrowNothing(PageOf(client), Reasoning);
      } else {
        PageOpened(old(client), client, Reasoning);
      }
    }

    /** Only one item is open at a time: reasoning before the text is closed first. */
    method ShowText(delta: string)
      requires Shape() && Known()
      modifies this`trace, this`client, this`started, this`message, this`reasoning, this`nextOutputIndex,
                 this`outputItems, this`uuids
      ensures Shape() && started && client.open.Some? && message.added && reasoning.added == old(reasoning.added)
      ensures Known()
      ensures Told(client) == Told(old(client)) + Chars(delta, false)
                && ToldText(client) == ToldText(old(client)) + delta
      ensures PageOf(client) == PageOf(old(client)).Grow(Message, delta)
    {
      OpenPart();
      hide *;
      FinishReasoning();
      EnsureMessageKnown();
      MessageDelta(delta);
      NewKind(PageOf(old(client)), Message, delta, old(reasoning).IsOpen());
    }

    method ShowReasoning(delta: string)
      requires Shape() && Known()
      modifies this`trace, this`client, this`started, this`message, this`reasoning, this`nextOutputIndex,
                 this`outputItems, this`uuids
      ensures Shape() && started && client.open.Some? && reasoning.added && message.added == old(message.added)
      ensures Known()
      ensures Told(client) == Told(old(client)) + Chars(delta, true) && ToldText(client) == ToldText(old(client))
      ensures PageOf(client) == PageOf(old(client)).Grow(Reasoning, delta)
    {
      OpenPart();
      hide *;
      FinishMessage();
      EnsureReasoningKnown();
      ReasoningDelta(delta);
      NewKind(PageOf(old(client)), Reasoning, delta, old(message).IsOpen());
    }

    lemma ReasoningIsReasoning()
      requires Shape()
      ensures HasPart(message.AsItem().kind) && HasPart(reasoning.AsItem().kind) && reasoning.AsItem().kind != Message
      ensures message.IsOpen() ==> message.added
    {
    }

    method MessageDelta(delta: string)
      requires Shape() && started && message.IsOpen()
      modifies this`trace, this`client, this`message
      ensures Shape() && client.open.Some? && message.added && client.items == old(client).items
      ensures Told(client) == Told(old(client)) + Chars(delta, false)
                && ToldText(client) == ToldText(old(client)) + delta
      ensures PageOf(client) == PageOf(old(client)).Grow(Message, delta) && (old(Known()) ==> Known())
    {
      hide KindsAreKnown, Told, ToldText, Replay, Agrees, PageOf, Page.Grow, Page.Close, Page.Writes;
      OpenIs(client, started, message, reasoning, nextOutputIndex, outputItems, uuids);
      GrownAgrees(client, message, reasoning, nextOutputIndex, outputItems, uuids, delta);
      message := message.(text := message.text + delta);
      Send(Delta(message.index, message.id, Message, delta));
      PageGrown(old(client), client, Message, delta);
    }

    method ReasoningDelta(delta: string)
      requires Shape() && started && reasoning.IsOpen()
      modifies this`trace, this`client, this`reasoning
      ensures Shape() && client.open.Some? && reasoning.added && client.items == old(client).items
      ensures Told(client) == Told(old(client)) + Chars(delta, true) && ToldText(client) == ToldText(old(client))
      ensures PageOf(client) == PageOf(old(client)).Grow(Reasoning, delta) && (old(Known()) ==> Known())
    {
      hide KindsAreKnown, Told, ToldText, Replay, Agrees, PageOf, Page.Grow, Page.Close, Page.Writes;
      AgreesEitherWay(client, started, message, reasoning, nextOutputIndex, outputItems, uuids);
      OpenIs(client, started, reasoning, message, nextOutputIndex, outputItems, uuids);
      GrownAgrees(client, reasoning, message, nextOutputIndex, outputItems, uuids, delta);
      reasoning := reasoning.(text := reasoning.text + delta);
      Send(Delta(reasoning.index, reasoning.id, Reasoning, delta));
      PageGrown(old(client), client, Reasoning, delta);
      AgreesEitherWay(client, started, reasoning, message, nextOutputIndex, outputItems, uuids);
    }

    /** Reasoning from a source that was just admitted. */
    method EmitReasoningDelta(text: string, ghost channel: Channel)
      requires text != "" && channel != Answers && Shape() && LaidOut()
      requires var g := GateAfter(raw, thinking);
               Content(g.source) && MayPass(g, thinking, channel) && thinkingSource == Passed(g, channel, false).source
      modifies this
      ensures Valid() && raw == old(raw) + RawChars(text, channel) && toolUses == old(toolUses)
      ensures (old(started) ==> started) && (old(Telling()) ==> Telling())
    {
      hide Told, ToldText, Replay, Agrees, Kept, GateAfter, LeadTrim, KindsAreKnown, EndsInText;
      KeptChars(raw, text, channel, thinking);
      var delta := text;
      if !sawReasoningText {
        delta := LeadTrim(text);
        if delta == "" {
          assert Kept(raw + RawChars(text, channel), thinking) == Kept(raw, thinking);
          raw := raw + RawChars(text, channel);
          return;
        }
      }
      SayReasoning(text, delta, channel);
      IsLaidOut(old(Kept(raw, thinking)), delta, true);
    }

    method SayReasoning(ghost text: string, delta: string, ghost channel: Channel)
      requires Shape() && Content(GateAfter(raw, thinking).source) && delta != "" && channel != Answers
      requires Kept(raw + RawChars(text, channel), thinking) == Kept(raw, thinking) + Chars(delta, true)
      requires GateAfter(raw + RawChars(text, channel), thinking) == Passed(GateAfter(raw, thinking), channel, true)
      requires thinkingSource == Passed(GateAfter(raw, thinking), channel, false).source
      modifies this
      ensures Shape() && Content(thinkingSource) && raw == old(raw) + RawChars(text, channel)
      ensures toolUses == old(toolUses) && started && Telling()
      ensures PageOf(client) == PageOf(old(client)).Grow(Reasoning, delta)
    {
      hide Told, ToldText, Replay, Accept, Agrees, Kept, GateAfter, KindsAreKnown, EndsInText, Chars, RawChars,
        Slot.IsOpen;
      EndsInTextAfter(Kept(raw, thinking), delta, true);
      hide Shape, Known, Lay, PageOf, Page.Grow, Page.Close, Page.Writes;
      sawReasoningText := true;
      reasoningBuilder := reasoningBuilder + delta;
      ShowReasoning(delta);
      raw := raw + RawChars(text, channel);
    }

    /** Thinking from inline tags: dropped if not asked for, and if native reasoning came first. */
    method EmitTagThinking(text: string)
      requires Valid() && text != ""
      modifies this
      ensures Valid() && raw == old(raw) + RawChars(text, Tags) && toolUses == old(toolUses)
      ensures (old(started) ==> started) && (old(Telling()) ==> Telling())
    {
      hide Told, ToldText, Replay, Agrees, Kept, GateAfter, LeadTrim, PageOf, Lay, KindsAreKnown, EndsInText;
      KeptChars(raw, text, Tags, thinking);
      var allowed := false;
      if thinking { allowed, thinkingSource := InlineSplit.AllowTagSource(thinkingSource); }
      if !allowed {
        assert Kept(raw + RawChars(text, Tags), thinking) == Kept(raw, thinking);
        raw := raw + RawChars(text, Tags);
        return;
      }
      EmitReasoningDelta(text, Tags);
    }

    /** A native reasoning event. */
    method OnReasoning(text: string)
      requires Valid() && text != ""
      modifies this
      ensures Valid() && raw == old(raw) + RawChars(text, Natives) && toolUses == old(toolUses)
      ensures (old(started) ==> started) && (old(Telling()) ==> Telling())
    {
      hide Told, ToldText, Replay, Agrees, Kept, GateAfter, LeadTrim, PageOf, Lay, KindsAreKnown, EndsInText;
      KeptChars(raw, text, Natives, thinking);
      var allowed := false;
      if thinking { allowed, thinkingSource := InlineSplit.AllowReasoningSource(thinkingSource); }
      if !allowed {
        assert Kept(raw + RawChars(text, Natives), thinking) == Kept(raw, thinking);
        raw := raw + RawChars(text, Natives);
        return;
      }
      EmitReasoningDelta(text, Natives);
    }

    /** What the splitter released, in order. */
    method EmitSegments(segments: seq<Segment>)
      requires Valid() && forall seg :: seg in segments ==> seg.text != ""
      modifies this
      ensures Valid() && raw == old(raw) + RawMarks(SegmentMarks(segments)) && toolUses == old(toolUses)
      ensures (old(started) ==> started) && (old(Telling()) ==> Telling())
    {
      hide Valid, Telling, SegmentMarks, Marks;
      ghost var raw0 := raw;
      var i := 0;
      assert segments[..0] == [];
      NoSegments();
      while i < |segments|
        invariant 0 <= i <= |segments|
        invariant Valid() && raw == raw0 + RawMarks(SegmentMarks(segments[..i])) && toolUses == old(toolUses)
        invariant (old(started) ==> started) && (old(Telling()) ==> Telling())
      {
        var seg := segments[i];
        SegmentStep(segments, i);
        assert seg in segments;
        ConcatAssociative(raw0, RawMarks(SegmentMarks(segments[..i])),
                          RawChars(seg.text, if seg.thinking then Tags else Answers));
        if seg.thinking { EmitTagThinking(seg.text); } else { EmitTextDelta(seg.text); }
        i := i + 1;
      }
      assert segments[..|segments|] == segments;
    }

    /** A tool call takes an item of its own, announced, filled and closed at once. */
    method EmitCall(call: Item)
      requires Valid() && started && !HasPart(call.kind) && call.id.FromUpstream?
      modifies this
      ensures Valid() && started && Telling() && raw == old(raw) + [ToolCall(call)]
                && toolUses == old(toolUses) + [call]
    {
      hide Told, ToldText, Replay, Agrees, Kept, GateAfter, KindsAreKnown;
      KeptSnoc(raw, ToolCall(call), thinking);
      assert !EndsInText(Kept(raw, thinking) + [Called(call)]);
      LayCall(Kept(raw, thinking), call);
      hide Shape, Lay, PageOf, Page.Add;
      ShowCall(call);
      toolUses := toolUses + [call];
      raw := raw + [ToolCall(call)];
    }

    /** Reasoning and text before the call are closed first. */
    method ShowCall(call: Item)
      requires Shape() && started && !HasPart(call.kind) && call.id.FromUpstream?
      requires Known()
      modifies this`trace, this`client, this`message, this`reasoning, this`nextOutputIndex, this`outputItems
      ensures Shape() && client.open == None && message.added == old(message.added)
                && reasoning.added == old(reasoning.added)
      ensures KindsAreKnown(client.items, message.added, true)
      ensures Told(client) == Told(old(client)) + [Called(call)] && ToldText(client) == ToldText(old(client))
      ensures PageOf(client) == PageOf(old(client)).Add(call)
    {
      hide Told, ToldText, Replay, Agrees, KindsAreKnown, PageOf;
      ReasoningIsReasoning();
      CloseBoth();
      KindsSnoc(client.items, call, message.added, toolUses != []);
      NothingOpen(client, started, message, reasoning, nextOutputIndex, outputItems, uuids);
      CallAgrees(client, message, reasoning, nextOutputIndex, outputItems, uuids, call);
      var outputIndex := nextOutputIndex;
      nextOutputIndex := nextOutputIndex + 1;
      ReserveOutputItem(outputIndex, call);
      ghost var before := client;
      SendCall(outputIndex, call);
      PageAdded(before, client, call);
      AddClosed(PageOf(old(client)), call);
    }

    method CloseBoth()
      requires Shape() && Known()
      modifies this`trace, this`client, this`message, this`reasoning, this`outputItems
      ensures Shape() && !message.IsOpen() && !reasoning.IsOpen()
      ensures message.added == old(message.added) && reasoning.added == old(reasoning.added)
      ensures Known()
      ensures Told(client) == Told(old(client)) && ToldText(client) == ToldText(old(client))
      ensures PageOf(client) == PageOf(old(client)).Close()
    {
      OpenPart();
      hide Shape, Told, ToldText, Replay, Agrees, KindsAreKnown, PageOf, Page.Close, Page.Writes;
      hide *;
      FinishReasoning();
      FinishMessage();
    }

    method SendCall(index: nat, call: Item)
      requires Replay(trace) == Some(client) && client.progress == Running && client.open == None
      requires index == |client.items| && !HasPart(call.kind) && call.id.FromUpstream?
      modifies this`trace, this`client
      ensures Replay(trace) == Some(client) && client == Client(Running, old(client).items + [call], None)
      ensures Told(client) == Told(old(client)) + [Called(call)] && ToldText(client) == ToldText(old(client))
    {
      hide Told, ToldText, Replay;
      Send(ItemAdded(index, call.id, call.kind));
      if call.kind != ToolSearchCall {
        Send(Delta(index, call.id, call.kind, call.text));
        Send(TextDone(index, call.id, call.kind, call.text));
      }
      Send(ItemDone(index, call));
    }

    /** The end of a successful attempt, the splitter having been flushed. */
    method Complete()
      requires Valid()
      modifies this
      ensures Replay(trace) == Some(client) && client.progress == Ended && client.open == None
      ensures Told(client) == Kept(raw, thinking) && raw == old(raw) && toolUses == old(toolUses)
      ensures PageOf(client) == Lay(Kept(raw, thinking)).Close()
      ensures trace != [] && trace[|trace| - 1].Completed?
    {
      hide Told, ToldText, Replay, Agrees, Kept, GateAfter;
      EnsureStarted();
      var finalContent := contentBuilder;
      var reasoningContent := if thinking then reasoningBuilder else "";
      if reasoningContent != "" && !reasoning.added {
        assert false;
      }
      CloseBoth();
      SendCompleted(finalContent);
    }

    method SendCompleted(finalContent: string)
      requires Shape() && started && !message.IsOpen() && !reasoning.IsOpen()
      requires finalContent == ToldText(client) && (finalContent != "" <==> message.added)
      requires Known()
      modifies this`trace, this`client, this`outputItems, this`nextOutputIndex
      ensures Replay(trace) == Some(client) && client.progress == Ended && client.open == None
      ensures Told(client) == Told(old(client)) && PageOf(client) == PageOf(old(client))
      ensures trace != [] && trace[|trace| - 1].Completed?
    {
      hide Told, ToldText, Replay, Agrees, KindsAreKnown;
      NothingOpen(client, started, message, reasoning, nextOutputIndex, outputItems, uuids);
      OutputIsItems(client, started, message, reasoning, nextOutputIndex, outputItems, uuids);
      CompletionFits(client, outputItems, message.id, finalContent, message.added, toolUses != []);
      if !message.added && toolUses == [] {
        ReserveOutputItem(nextOutputIndex, Item(message.id, Message, finalContent));
        nextOutputIndex := nextOutputIndex + 1;
      }
      hide Accept;
      Send(Completed(Values(outputItems), finalContent));
    }

    /**
     An attempt that failed after it began to answer, the splitter having been flushed.  Nothing is
     closed: the last item stays open exactly if the client was told text or reasoning last.
     */
    method Fail()
      requires Valid() && started
      modifies this
      ensures Replay(trace) == Some(client) && client.progress == Ended
      ensures Told(client) == Kept(raw, thinking) && raw == old(raw) && PageOf(client) == Lay(Kept(raw, thinking))
      ensures client.open.Some? <==> EndsInText(Kept(raw, thinking))
      ensures trace != [] && trace[|trace| - 1] == Failed
    {
      hide Told, ToldText, Replay, Agrees, Kept, GateAfter;
      StartedRuns(client, message, reasoning, nextOutputIndex, outputItems, uuids);
      Send(Failed);
    }
  }

  lemma AddClosed(page: Page, call: Item)
    ensures page.Close().Add(call) == page.Add(call)
  {
  }

  /** An empty item of a kind was announced. */
  ghost predicate Opened(before: Client, after: Client, kind: Kind) {
    && before.open == None && after.open.Some?
    && after.open.value.item.kind == kind && after.open.value.item.text == ""
  }

  /** Text of a kind goes on in the open item if nothing else had to be closed. */
  lemma NewKind(page: Page, kind: Kind, text: string, closing: bool)
    requires closing ==> !page.Writes(kind)
    ensures (if closing then page.Close() else page).Grow(kind, "").Grow(kind, text) == page.Grow(kind, text)
  {
    assert "" + text == text;
    GrowTwice(if closing then page.Close() else page, kind, "", text);
  }

  /** The last thing told is text or reasoning, not a call. */
  predicate EndsInText(said: seq<Spoken>) {
    said != [] && !said[|said| - 1].Called?
  }

  lemma EndsInTextAfter(said: seq<Spoken>, text: string, thought: bool)
    requires text != ""
    ensures EndsInText(said + Chars(text, thought)) && said + Chars(text, thought) != []
  {
  }

  function Values(outputItems: seq<Option<Item>>): seq<Item>
    requires forall i :: 0 <= i < |outputItems| ==> outputItems[i].Some?
  {
    seq(|outputItems|, i requires 0 <= i < |outputItems| => outputItems[i].value)
  }

  lemma OutputIsItems(client: Client, started: bool, a: Slot, b: Slot, next: nat, outputItems: seq<Option<Item>>,
                      uuids: nat)
    requires Agrees(client, started, a, b, next, outputItems, uuids) && client.open == None
    ensures |outputItems| == |client.items| && forall i :: 0 <= i < |outputItems| ==>
              outputItems[i] == Some(client.items[i])
  {
  }

  lemma StartedRuns(client: Client, a: Slot, b: Slot, next: nat, outputItems: seq<Option<Item>>, uuids: nat)
    requires Agrees(client, true, a, b, next, outputItems, uuids)
    ensures client.progress == Running
  {
  }

  /** The output is the items as closed, or those and an empty message that was never announced. */
  lemma CompletionFits(client: Client, outputItems: seq<Option<Item>>, id: Id, text: string, anyMessage: bool,
                       anyCall: bool)
    requires client.progress == Running && client.open == None && text == ToldText(client)
               && (text != "" <==> anyMessage)
    requires |outputItems| == |client.items| && forall i :: 0 <= i < |outputItems| ==>
               outputItems[i] == Some(client.items[i])
    requires KindsAreKnown(client.items, anyMessage, anyCall)
    ensures var e := Completed(if !anyMessage && !anyCall then Values(outputItems + [Some(Item(id, Message, text))])
                               else Values(outputItems), text);
            Accept(client, e) == Some(Client(Ended, client.items, None))
  {
    hide ToldText, MessageText;
    NothingOpenTells(client);
    assert Values(outputItems) == client.items;
    if !anyMessage && !anyCall {
      var output := Values(outputItems + [Some(Item(id, Message, text))]);
      assert output[..|client.items|] == client.items;
    } else if OnlyReasoning(client.items) {
      OnlyReasoningSaysNothing(client.items);
    }
  }

  lemma NothingOpenTells(client: Client)
    requires client.open == None
    ensures ToldText(client) == MessageText(client.items)
  {
  }

  lemma NoSegments()
    ensures SegmentMarks([]) == []
  {
  }

  lemma SegmentStep(segments: seq<Segment>, i: nat)
    requires i < |segments|
    ensures var seg := segments[i];
            RawMarks(SegmentMarks(segments[..i + 1]))
                == RawMarks(SegmentMarks(segments[..i])) + RawChars(seg.text, if seg.thinking then Tags else Answers)
  {
    hide SegmentMarks, Marks;
    var seg := segments[i];
    assert segments[..i + 1] == segments[..i] + [seg];
    SegmentMarksConcat(segments[..i], [seg]);
    OneSegment(seg);
    RawMarksConcat(SegmentMarks(segments[..i]), Marks(seg.text, seg.thinking));
    RawMarksOfSegment(seg.text, seg.thinking);
  }

  /** What an event adds to what the client was told. */
  function Says(e: Event): seq<Spoken> {
    match e
    case Delta(_, _, kind, text) => if HasPart(kind) then Chars(text, kind == Reasoning) else []
    case ItemDone(_, item) => if HasPart(item.kind) then [] else [Called(item)]
    case _ => []
  }

  function SaysText(e: Event): string {
    if e.Delta? && e.kind == Message then e.text else ""
  }

  lemma EventTells(c: Client, e: Event)
    requires Accept(c, e).Some?
    ensures Told(Accept(c, e).value) == Told(c) + Says(e)
    ensures ToldText(Accept(c, e).value) == ToldText(c) + SaysText(e)
  {
    hide Accept, Told, ToldText;
    match e
    case Delta(index, id, kind, text) => DeltaTells(c, index, id, kind, text);
    case ItemDone(index, item) => ItemDoneTells(c, index, item);
    case _ => OtherTells(c, e);
  }

  /** What decides whether an empty message completes the output. */
  ghost predicate KindsAreKnown(items: seq<Item>, anyMessage: bool, anyCall: bool) {
    && (forall i :: 0 <= i < |items| ==>
        items[i].kind == Reasoning || (items[i].kind == Message && anyMessage) || anyCall)
    && (anyCall ==> exists i :: 0 <= i < |items| && !HasPart(items[i].kind))
  }

  lemma KnownWithMessage(items: seq<Item>, anyMessage: bool, anyCall: bool)
    ensures KindsAreKnown(items, anyMessage, anyCall) ==> KindsAreKnown(items, true, anyCall)
  {
  }

  lemma KindsSnoc(items: seq<Item>, item: Item, anyMessage: bool, anyCall: bool)
    requires KindsAreKnown(items, anyMessage, anyCall) && (item.kind == Message ==> anyMessage)
    ensures KindsAreKnown(items + [item], anyMessage, anyCall || !HasPart(item.kind))
    ensures KindsAreKnown(items, true, anyCall) && KindsAreKnown(items + [item], true, anyCall || !HasPart(item.kind))
  {
    var all := items + [item];
    assert all[|items|] == item;
    if anyCall {
      var i :| 0 <= i < |items| && !HasPart(items[i].kind);
      assert all[i] == items[i];
    }
  }

  lemma {:induction false} OnlyReasoningSaysNothing(items: seq<Item>)
    requires OnlyReasoning(items)
    ensures MessageText(items) == ""
  {
    if items != [] { OnlyReasoningSaysNothing(items[..|items| - 1]); }
  }

  // ---------------------------------------------------------------- one attempt

  /** What has come in is what the callbacks brought, and the splitter holds what it should. */
  ghost predicate Fed(raw: seq<Raw>, calls: seq<Callback>, buf: string, inBlock: bool) {
    raw == Arrived(calls) && buf == Held(calls) && inBlock == HeldBlock(calls)
  }

  lemma FedAtStart()
    ensures Fed([], [], "", false)
  {
    SettledNothing();
  }

  lemma FedNative(raw: seq<Raw>, calls: seq<Callback>, buf: string, inBlock: bool, text: string)
    requires Fed(raw, calls, buf, inBlock)
    ensures Fed(raw + RawChars(text, Natives), calls + [OnText(text, true)], buf, inBlock)
  {
    hide Arrived, Held, HeldBlock, Piece, Block, Before, NativeText;
    CallbackStep(calls, OnText(text, true));
    HeldAfterNative(calls, text);
  }

  lemma FedText(raw: seq<Raw>, calls: seq<Callback>, buf: string, inBlock: bool, text: string, out: seq<Mark>,
                buf': string, inBlock': bool)
    requires Fed(raw, calls, buf, inBlock)
    requires out == Settled(buf + text, inBlock) && buf' == Pending(buf + text, inBlock)
               && inBlock' == PendingBlock(buf + text, inBlock)
    ensures Fed(raw + RawMarks(out), calls + [OnText(text, false)], buf', inBlock')
  {
    hide Arrived, Held, HeldBlock, Piece, Block, Before, NativeText, Settled, Pending, PendingBlock;
    CallbackStep(calls, OnText(text, false));
    HeldAfterText(calls, text);
  }

  lemma FedCall(raw: seq<Raw>, calls: seq<Callback>, item: Item, inBlock: bool)
    requires raw == Flushed(calls) && inBlock == HeldBlock(calls)
    ensures Fed(raw + [ToolCall(item)], calls + [OnToolUse(item)], "", inBlock)
  {
    hide Arrived, Flushed, Held, HeldBlock, Piece, Block, Before, NativeText;
    CallbackStep(calls, OnToolUse(item));
    HeldAfterCall(calls, item);
  }

  lemma FedNothing(raw: seq<Raw>, calls: seq<Callback>, buf: string, inBlock: bool, isThinking: bool)
    requires Fed(raw, calls, buf, inBlock)
    ensures Fed(raw, calls + [OnText("", isThinking)], buf, inBlock)
  {
    hide Arrived, Held, HeldBlock, Piece, Block, Before, NativeText, Settled, Pending, PendingBlock;
    CallbackStep(calls, OnText("", isThinking));
    assert buf + "" == buf;
    if isThinking {
      HeldAfterNative(calls, "");
    } else {
      HeldAfterText(calls, "");
      PendingIsPartialTag(Piece(calls), Block(calls));
      HeldIs(calls);
      NothingSettled(buf, inBlock);
      assert RawMarks([]) == [];
    }
    assert raw + [] == raw;
  }

  lemma HeldIs(calls: seq<Callback>)
    ensures Held(calls) == Pending(Piece(calls), Block(calls))
              && HeldBlock(calls) == PendingBlock(Piece(calls), Block(calls))
  {
  }

  predicate IsCallback(call: Callback) {
    call.OnToolUse? ==> !HasPart(call.item.kind) && call.item.id.FromUpstream?
  }

  /** The callback handlers; `calls` are the callbacks received before. */
  method Receive(emitter: ResponsesEmitter, splitter: ThinkingTagSplitter, call: Callback, ghost calls: seq<Callback>)
    requires emitter.Valid() && splitter.Valid() && IsCallback(call)
    requires Fed(emitter.raw, calls, splitter.buf, splitter.inBlock)
    modifies emitter, splitter
    ensures emitter.Valid() && splitter.Valid() && (old(emitter.Telling()) ==> emitter.Telling())
    ensures Fed(emitter.raw, calls + [call], splitter.buf, splitter.inBlock)
  {
    hide ResponsesEmitter.Shape, ResponsesEmitter.Content, ResponsesEmitter.Telling, Fed, Marks, Settled, Pending,
           PendingBlock, Scan, ScanEnd;
    match call {
      case OnText(text, isThinking) =>
        if text == "" {
          FedNothing(emitter.raw, calls, splitter.buf, splitter.inBlock, isThinking);
        } else if isThinking {
          FedNative(emitter.raw, calls, splitter.buf, splitter.inBlock, text);
          emitter.OnReasoning(text);
        } else {
          ghost var buf, inBlock := splitter.buf, splitter.inBlock;
          var segments := splitter.Push(text);
          FedText(emitter.raw, calls, buf, inBlock, text, SegmentMarks(segments), splitter.buf, splitter.inBlock);
          emitter.EmitSegments(segments);
        }
      case OnToolUse(item) =>
        Begin(emitter);
        Release(emitter, splitter, calls);
        FedCall(emitter.raw, calls, item, splitter.inBlock);
        emitter.EmitCall(item);
    }
  }

  method Begin(emitter: ResponsesEmitter)
    requires emitter.Valid()
    modifies emitter
    ensures emitter.Valid() && emitter.started && emitter.raw == old(emitter.raw)
  {
    hide Agrees, Replay, Told, ToldText, Kept, GateAfter, KindsAreKnown;
    emitter.EnsureStarted();
  }

  /** splitter.Flush into the emitter. */
  method Release(emitter: ResponsesEmitter, splitter: ThinkingTagSplitter, ghost calls: seq<Callback>)
    requires emitter.Valid() && splitter.Valid() && Fed(emitter.raw, calls, splitter.buf, splitter.inBlock)
    modifies emitter, splitter
    ensures emitter.Valid() && splitter.Valid() && splitter.buf == "" && splitter.inBlock == HeldBlock(calls)
    ensures emitter.raw == Flushed(calls)
    ensures old(emitter.started) ==> emitter.started
  {
    hide ResponsesEmitter.Valid, Arrived, Held, HeldBlock, Marks;
    var segments := splitter.Flush();
    emitter.EmitSegments(segments);
  }

  /** How an upstream call ends. */
  datatype End = Finished | Broken | Canceled

  datatype Attempt = Attempt(calls: seq<Callback>, end: End)

  ghost predicate IsAttempt(attempt: Attempt) {
    forall i :: 0 <= i < |attempt.calls| ==> IsCallback(attempt.calls[i])
  }

  /**
   What an attempt's trace is worth: all of its callbacks when it finished or failed, and what they
   settled when the client left.  A failed attempt that told nothing sent nothing; one that did leaves
   its last item open exactly if text or reasoning came last.
   */
  ghost predicate Renders(trace: seq<Event>, attempt: Attempt, thinking: bool) {
    var all, settled := Kept(Flushed(attempt.calls), thinking), Kept(Arrived(attempt.calls), thinking);
    && Replay(trace).Some?
    && var client := Replay(trace).value;
       match attempt.end
       case Finished =>
         && Told(client) == all && trace != [] && trace[|trace| - 1].Completed? && client.open == None
         && PageOf(client) == Lay(all).Close()
       case Broken =>
         if settled == [] then trace == []
         else
           && Told(client) == all && trace != [] && trace[|trace| - 1] == Failed
           && (client.open.Some? <==> EndsInText(all)) && PageOf(client) == Lay(all)
       case Canceled =>
         Told(client) == settled && PageOf(client) == Lay(settled)
  }

  /** One upstream call; an attempt that breaks before it sent anything leaves no trace and may be repeated. */
  method RunAttempt(thinking: bool, attempt: Attempt) returns (trace: seq<Event>)
    requires IsAttempt(attempt)
    ensures Renders(trace, attempt, thinking)
    ensures Replay(trace).Some?
    ensures attempt.end == Finished ==> trace != [] && trace[|trace| - 1].Completed?
    ensures attempt.end == Broken && trace != [] ==> trace[|trace| - 1] == Failed
    ensures attempt.end == Broken ==> (trace == [] <==> Kept(Arrived(attempt.calls), thinking) == [])
  {
    hide Fed, ResponsesEmitter.Telling, ResponsesEmitter.Valid, Renders;
    var emitter := new ResponsesEmitter(thinking);
    var splitter := new ThinkingTagSplitter();
    var calls := attempt.calls;
    FedAtStart();
    assert calls[..0] == [];
    var i := 0;
    while i < |calls|
      invariant 0 <= i <= |calls| && fresh(emitter) && fresh(splitter)
      invariant emitter.thinking == thinking && emitter.Valid() && emitter.Telling() && splitter.Valid()
      invariant Fed(emitter.raw, calls[..i], splitter.buf, splitter.inBlock)
    {
      assert calls[..i + 1] == calls[..i] + [calls[i]];
      Receive(emitter, splitter, calls[i], calls[..i]);
      i := i + 1;
    }
    assert calls[..|calls|] == calls;
    EndAttempt(emitter, splitter, attempt);
    trace := emitter.trace;
    RendersMeans(trace, attempt, thinking);
  }

  lemma RendersMeans(trace: seq<Event>, attempt: Attempt, thinking: bool)
    requires Renders(trace, attempt, thinking)
    ensures Replay(trace).Some?
    ensures attempt.end == Finished ==> trace != [] && trace[|trace| - 1].Completed?
    ensures attempt.end == Broken && trace != [] ==> trace[|trace| - 1] == Failed
    ensures attempt.end == Broken ==> (trace == [] <==> Kept(Arrived(attempt.calls), thinking) == [])
  {
  }

  /** After the upstream call: the answer is completed, broken off with an error, or left as it is. */
  method EndAttempt(emitter: ResponsesEmitter, splitter: ThinkingTagSplitter, attempt: Attempt)
    requires emitter.Valid() && emitter.Telling() && splitter.Valid()
    requires Fed(emitter.raw, attempt.calls, splitter.buf, splitter.inBlock)
    modifies emitter, splitter
    ensures Renders(emitter.trace, attempt, emitter.thinking)
  {
    hide Arrived, Flushed, Held, HeldBlock, Agrees, Kept, GateAfter, Told, ToldText, Replay, KindsAreKnown, EndsInText;
    match attempt.end {
      case Canceled =>
      case Broken =>
        if emitter.started {
          Release(emitter, splitter, attempt.calls);
          emitter.Fail();
        }
      case Finished =>
        Begin(emitter);
        Release(emitter, splitter, attempt.calls);
        emitter.Complete();
    }
  }

  /**
   The retry loop: at most `budget` upstream calls, a further one only while nothing was told.  The
   client's whole trace comes from the one attempt named; without one the reply is a plain error.
   */
  method Handle(thinking: bool, attempts: nat -> Attempt, budget: nat) returns (trace: seq<Event>, served: Option<nat>)
    requires forall k :: IsAttempt(attempts(k))
    ensures Replay(trace).Some?
    ensures served.Some? ==> served.value < budget && Renders(trace, attempts(served.value), thinking)
    ensures served.Some? ==> !ToldNothing(attempts(served.value), thinking)
    ensures forall k :: 0 <= k < (if served.Some? then served.value else budget) ==> ToldNothing(attempts(k), thinking)
    ensures served.None? ==> trace == []
  {
    hide IsAttempt, Kept, Arrived;
    trace, served := [], None;
    var k := 0;
    while k < budget
      invariant 0 <= k <= budget && trace == []
      invariant forall j :: 0 <= j < k ==> ToldNothing(attempts(j), thinking)
    {
      trace := RunAttempt(thinking, attempts(k));
      if attempts(k).end != Broken || trace != [] {
        return trace, Some(k);
      }
      k := k + 1;
    }
  }

  /** The attempt failed before any of it could be told. */
  predicate ToldNothing(attempt: Attempt, thinking: bool) {
    attempt.end == Broken && Kept(Arrived(attempt.calls), thinking) == []
  }

  // ---------------------------------------------------------------- what a reply says

  /** A completed reply without calls: whatever the chunks, its text is that of the whole stream split at once. */
  lemma {:induction false} TextReplyIsTheAnswer(trace: seq<Event>, attempt: Attempt, thinking: bool)
    requires Renders(trace, attempt, thinking) && attempt.end == Finished
    requires forall i :: 0 <= i < |attempt.calls| ==> attempt.calls[i].OnText?
    ensures var told := Told(Replay(trace).value);
            && SaidText(told, false) == LeadTrim(AnswerOf(Piece(attempt.calls)))
            && (if !thinking then SaidText(told, true) == ""
                else SaidText(told, true) == LeadTrim(ThinkingSplit.Only(Scan(Piece(attempt.calls), false), true))
                     || SaidText(told, true) == LeadTrim(NativeText(attempt.calls)))
  {
    hide Replay, Told, Kept, GateAfter, SaidText, RawText, Scan, Piece, Block, Before, WithoutNative, NativeOnly,
           NativeText,
         RawMarks, Flushed, Arrived;
    var calls := attempt.calls;
    NoCallsNothingBefore(calls);
    FlushedParts(calls);
    KeptTexts(Flushed(calls), thinking);
    RawTextWithoutNative(Flushed(calls));
    assert [] + RawMarks(Scan(Piece(calls), false)) == RawMarks(Scan(Piece(calls), false));
    RawTextOfMarks(Scan(Piece(calls), false));
  }

  /**
   Without native reasoning events the chunks do not matter at all: everything told, in its order, is
   settled by the callbacks.
   */
  lemma ReplyIsSettled(trace: seq<Event>, attempt: Attempt, thinking: bool)
    requires Renders(trace, attempt, thinking) && attempt.end == Finished
    requires NativeText(attempt.calls) == ""
    ensures Told(Replay(trace).value) == Kept(Expected(attempt.calls), thinking)
  {
    hide Replay, Told, Kept, Expected, Flushed, Arrived;
    FlushedParts(attempt.calls);
    NothingNative(Flushed(attempt.calls));
  }

  lemma {:induction false} NothingNative(raw: seq<Raw>)
    requires NativeOnly(raw) == ""
    ensures WithoutNative(raw) == raw
  {
    if raw != [] { NothingNative(raw[..|raw| - 1]); }
  }

  /** A stream that fails after one letter leaves its message open. */
  lemma FailureLeavesMessageOpen(trace: seq<Event>, thinking: bool)
    requires Renders(trace, Attempt([OnText("x", false)], Broken), thinking)
    ensures trace != [] && trace[|trace| - 1] == Failed && Replay(trace).value.open.Some?
  {
    hide Replay, Told;
    OneLetter(thinking);
  }

  lemma OneLetter(thinking: bool)
    ensures var calls := [OnText("x", false)];
            Kept(Arrived(calls), thinking) == Kept(Flushed(calls), thinking) == [Visible('x')]
  {
    var call := OnText("x", false);
    var calls := [call];
    assert calls == [] + [call];
    NothingArrived();
    LetterComes();
    hide Arrived, Flushed, Held, HeldBlock, Coming, Kept, GateAfter, KeptStep, Settled, Pending, PendingBlock;
    CallbackStep([], call);
    HeldAfterText([], "x");
    assert "" + "x" == "x" && [] + [AnswerChar('x')] == [AnswerChar('x')];
    NothingFlushed(calls);
    KeptSnoc([], AnswerChar('x'), thinking);
    LetterPasses(thinking);
  }

  lemma NothingArrived()
    ensures Arrived([]) == [] && Held([]) == "" && !HeldBlock([])
  {
    SettledNothing();
  }

  lemma LetterComes()
    ensures Coming("", false, OnText("x", false)) == [AnswerChar('x')]
    ensures Pending("x", false) == "" && !PendingBlock("x", false)
  {
    LetterIsSettled();
    hide Settled, Pending, PendingBlock;
    assert "" + "x" == "x";
  }

  lemma NothingFlushed(calls: seq<Callback>)
    requires Held(calls) == ""
    ensures Flushed(calls) == Arrived(calls)
  {
    hide Arrived, Held, HeldBlock;
    assert RawMarks(Marks("", HeldBlock(calls))) == [];
  }

  lemma LetterPasses(thinking: bool)
    ensures Kept([], thinking) + KeptStep(GateAfter([], thinking), thinking, AnswerChar('x')) == [Visible('x')]
  {
    assert Chars<Item>(['x'], false) == [Visible('x')];
  }

  lemma LetterIsSettled()
    ensures Settled("x", false) == [Mark('x', false)] && Pending("x", false) == "" && !PendingBlock("x", false)
  {
    assert !(OPEN_TAG <= "x") && !("x" < OPEN_TAG) by { assert OPEN_TAG[0] == '<'; }
    assert "x"[1..] == "";
    SettledNothing();
  }

  /**
   Text that was not interrupted is one item: in every trace no two neighbouring items are both messages or
   both reasoning, the one still open included, and none of them is empty.
   */
  lemma UninterruptedTextIsOneItem(trace: seq<Event>, attempt: Attempt, thinking: bool)
    requires Renders(trace, attempt, thinking)
    ensures var client := Replay(trace).value;
            var items := client.items + if client.open.Some? then [client.open.value.item] else [];
            && (forall i :: 0 <= i < |items| && HasPart(items[i].kind) ==> items[i].text != "")
            && forall i :: 0 < i < |items| && HasPart(items[i].kind) ==> items[i - 1].kind != items[i].kind
  {
    hide Told, Kept, Flushed, Arrived, EndsInText, Lay;
    var client := Replay(trace).value;
    var all, settled := Kept(Flushed(attempt.calls), thinking), Kept(Arrived(attempt.calls), thinking);
    LayIsJoined(all);
    LayIsJoined(settled);
    hide Replay;
    NothingReplayed();
    var items := client.items + if client.open.Some? then [client.open.value.item] else [];
    assert PartsOf(items) == PageOf(client).Close().parts;
    assert Joined(PartsOf(items));
    forall i | 0 < i < |items| && HasPart(items[i].kind) ensures items[i - 1].kind != items[i].kind {
      assert PartsOf(items)[i].Words? && PartsOf(items)[i - 1] == PartOf(items[i - 1]);
    }
    forall i | 0 <= i < |items| && HasPart(items[i].kind) ensures items[i].text != "" {
      assert PartsOf(items)[i].Words?;
    }
  }

  lemma NothingReplayed()
    ensures Replay([]) == Some(NEW_CLIENT)
  {
  }
}
