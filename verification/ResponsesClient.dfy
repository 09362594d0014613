/**
 What a client of the Responses stream sees (proxy/responses_api.go), and the reader it is judged by:
 `Accept` takes one event at a time and refuses any that breaks the protocol.  An event names its
 item by index and id; the item's kind stands for the family of event names.
 */
module ResponsesClient {
  import opened Text
  import opened Speech

  datatype Id = Generated(n: nat) | FromUpstream(s: string)

  datatype Kind = Message | Reasoning | FunctionCall | CustomToolCall | ToolSearchCall

  /** Messages and reasoning stream their text inside a part. */
  predicate HasPart(kind: Kind) {
    kind == Message || kind == Reasoning
  }

  /** A finished output item; `text` is a message's text, a reasoning summary or a call's arguments. */
  datatype Item = Item(id: Id, kind: Kind, text: string)

  datatype Event =
    | Created
    | ItemAdded(index: nat, id: Id, kind: Kind)
    | PartAdded(index: nat, id: Id, kind: Kind)
    | Delta(index: nat, id: Id, kind: Kind, text: string)
    | TextDone(index: nat, id: Id, kind: Kind, text: string)
    | PartDone(index: nat, id: Id, kind: Kind, text: string)
    | ItemDone(index: nat, item: Item)
    | Completed(output: seq<Item>, outputText: string)
    | Failed

  datatype Stage = Announced | InPart | TextFinal | PartFinal

  datatype OpenItem = OpenItem(index: nat, item: Item, stage: Stage)

  datatype Progress = NotStarted | Running | Ended

  /** What the client holds: the finished items and the one that is open. */
  datatype Client = Client(progress: Progress, items: seq<Item>, open: Option<OpenItem>)

  const NEW_CLIENT := Client(NotStarted, [], None)

  predicate Used(items: seq<Item>, id: Id) {
    exists i :: 0 <= i < |items| && items[i].id == id
  }

  predicate Concerns(c: Client, index: nat, id: Id, kind: Kind, stage: Stage) {
    && c.progress == Running && c.open.Some? && c.open.value.stage == stage
    && c.open.value.index == index && c.open.value.item.id == id && c.open.value.item.kind == kind
  }

  function At(c: Client, stage: Stage): Client
    requires c.open.Some?
  {
    Client(c.progress, c.items, Some(OpenItem(c.open.value.index, c.open.value.item, stage)))
  }

  function Grown(c: Client, text: string): Client
    requires c.open.Some?
  {
    var o := c.open.value;
    Client(c.progress, c.items, Some(OpenItem(o.index, Item(o.item.id, o.item.kind, o.item.text + text), o.stage)))
  }

  /**
   One event.  Items are announced one at a time with the next index and, if the proxy made the id
   up, an id not used before; what closes an item repeats the text its deltas gave; the final output
   is the items as they were closed, and one empty message more exactly if there was no message or call.
   */
  function Accept(c: Client, e: Event): Option<Client> {
    match e
    case Created =>
      if c.progress == NotStarted then Some(Client(Running, c.items, c.open)) else None
    case ItemAdded(index, id, kind) =>
      if c.progress == Running && c.open.None? && index == |c.items| && (id.Generated? ==> !Used(c.items, id))
      then Some(Client(Running, c.items, Some(OpenItem(index, Item(id, kind, ""), Announced)))) else None
    case PartAdded(index, id, kind) =>
      if Concerns(c, index, id, kind, Announced) && HasPart(kind) then Some(At(c, InPart)) else None
    case Delta(index, id, kind, text) =>
      if Concerns(c, index, id, kind, if HasPart(kind) then InPart else Announced) && kind != ToolSearchCall
          then Some(Grown(c, text)) else None
    case TextDone(index, id, kind, text) =>
      if Concerns(c, index, id, kind, if HasPart(kind) then InPart else Announced) && kind != ToolSearchCall
          && text == c.open.value.item.text
      then Some(At(c, TextFinal)) else None
    case PartDone(index, id, kind, text) =>
      if Concerns(c, index, id, kind, TextFinal) && HasPart(kind) && text == c.open.value.item.text
          then Some(At(c, PartFinal)) else None
    case ItemDone(index, item) =>
      if Concerns(c, index, item.id, item.kind, if HasPart(item.kind) then PartFinal
                  else if item.kind == ToolSearchCall then Announced else TextFinal)
         && (item.kind == ToolSearchCall || item.text == c.open.value.item.text)
      then Some(Client(Running, c.items + [item], None)) else None
    case Completed(output, outputText) =>
      if c.progress == Running && c.open.None? && outputText == MessageText(c.items)
         && (if OnlyReasoning(c.items) then IsWithEmptyMessage(output, c.items) else output == c.items)
      then Some(Client(Ended, c.items, None)) else None
    case Failed =>
      if c.progress == Running then Some(Client(Ended, c.items, c.open)) else None
  }

  predicate IsWithEmptyMessage(output: seq<Item>, items: seq<Item>) {
    && |output| == |items| + 1 && output[..|items|] == items
    && output[|items|].kind == Message && output[|items|].text == ""
  }

  /** No message and no call. */
  predicate OnlyReasoning(items: seq<Item>) {
    forall i :: 0 <= i < |items| ==> items[i].kind == Reasoning
  }

  /** The client after a trace, unless some event was out of order. */
  function Replay(trace: seq<Event>): Option<Client> {
    if trace == [] then Some(NEW_CLIENT)
    else
      var before := Replay(trace[..|trace| - 1]);
      if before.None? then None else Accept(before.value, trace[|trace| - 1])
  }

  lemma ReplaySnoc(trace: seq<Event>, e: Event)
    requires Replay(trace).Some?
    ensures Replay(trace + [e]) == Accept(Replay(trace).value, e)
  {
    hide Accept;
    assert (trace + [e])[..|trace|] == trace;
  }

  /** The text of all messages, in order. */
  function MessageText(items: seq<Item>): string {
    if items == [] then ""
    else
      MessageText(items[..|items| - 1]) +
      (if items[|items| - 1].kind == Message then items[|items| - 1].text else "")
  }

  // ---------------------------------------------------------------- what was said, in order

  type Spoken = Said<Item>

  function ItemSaid(item: Item): seq<Spoken> {
    if HasPart(item.kind) then Chars(item.text, item.kind == Reasoning) else [Called(item)]
  }

  /** Everything the items say, item after item. */
  function Transcript(items: seq<Item>): seq<Spoken> {
    if items == [] then [] else Transcript(items[..|items| - 1]) + ItemSaid(items[|items| - 1])
  }

  /** What the client was told so far, the open item's text included. */
  function Told(c: Client): seq<Spoken> {
    Transcript(c.items) + (if c.open.Some? && HasPart(c.open.value.item.kind) then ItemSaid(c.open.value.item) else [])
  }

  function ToldText(c: Client): string {
    MessageText(c.items) + (if c.open.Some? && c.open.value.item.kind == Message then c.open.value.item.text else "")
  }

  /** How each event adds to what the client was told: only a delta of a text, or the end of a call, says anything. */
  lemma DeltaTells(c: Client, index: nat, id: Id, kind: Kind, text: string)
    requires Accept(c, Delta(index, id, kind, text)).Some?
    ensures var after := Accept(c, Delta(index, id, kind, text)).value;
            && Told(after) == Told(c) + (if HasPart(kind) then Chars(text, kind == Reasoning) else [])
            && ToldText(after) == ToldText(c) + (if kind == Message then text else "")
  {
    var o := c.open.value.item;
    CharsConcat<Item>(o.text, text, kind == Reasoning);
    hide Transcript, MessageText, Chars;
    ConcatAssociative(Transcript(c.items), Chars(o.text, kind == Reasoning), Chars(text, kind == Reasoning));
    ConcatAssociative(MessageText(c.items), o.text, text);
  }

  lemma ItemDoneTells(c: Client, index: nat, item: Item)
    requires Accept(c, ItemDone(index, item)).Some?
    ensures var after := Accept(c, ItemDone(index, item)).value;
            && Told(after) == Told(c) + (if HasPart(item.kind) then [] else [Called(item)])
            && ToldText(after) == ToldText(c)
  {
    hide Chars, Transcript, MessageText;
    TranscriptSnoc(c.items, item);
  }

  lemma TranscriptSnoc(items: seq<Item>, item: Item)
    ensures Transcript(items + [item]) == Transcript(items) + ItemSaid(item)
    ensures MessageText(items + [item]) == MessageText(items) + (if item.kind == Message then item.text else "")
  {
    hide ItemSaid;
    assert (items + [item])[..|items|] == items;
  }

  lemma OtherTells(c: Client, e: Event)
    requires Accept(c, e).Some? && !e.Delta? && !e.ItemDone?
    ensures Told(Accept(c, e).value) == Told(c) && ToldText(Accept(c, e).value) == ToldText(c)
  {
    hide Transcript, MessageText;
    if e.ItemAdded? { CharsConcat<Item>("", "", e.kind == Reasoning); }
  }

  // ---------------------------------------------------------------- the items themselves

  /** An item without its number and, if it is text, without its id. */
  datatype Part = Words(kind: Kind, text: string) | Call(item: Item)

  function PartOf(item: Item): Part {
    if HasPart(item.kind) then Words(item.kind, item.text) else Call(item)
  }

  function PartsOf(items: seq<Item>): (parts: seq<Part>)
    ensures |parts| == |items| && forall i :: 0 <= i < |items| ==> parts[i] == PartOf(items[i])
  {
    seq(|items|, i requires 0 <= i < |items| => PartOf(items[i]))
  }

  /** What a client holds of an answer: its finished items, and the one that is open. */
  datatype Page = Page(parts: seq<Part>, open: Option<Part>) {
    function Close(): Page {
      if open.Some? then Page(parts + [open.value], None) else this
    }

    predicate Writes(kind: Kind) {
      open.Some? && open.value.Words? && open.value.kind == kind
    }

    /** More text of a kind: into the open item if it is of that kind, else into a new one. */
    function Grow(kind: Kind, text: string): Page {
      if Writes(kind) then Page(parts, Some(Words(kind, open.value.text + text)))
      else Page(Close().parts, Some(Words(kind, text)))
    }

    function Add(call: Item): Page {
      Page(Close().parts + [Call(call)], None)
    }
  }

  function PageOf(c: Client): Page {
    Page(PartsOf(c.items), if c.open.Some? then Some(PartOf(c.open.value.item)) else None)
  }

  lemma SamePage(a: Client, b: Client)
    requires b.items == a.items && b.open == a.open
    ensures PageOf(b) == PageOf(a)
  {
  }

  lemma PageOpened(a: Client, b: Client, kind: Kind)
    requires a.open == None && HasPart(kind) && b.items == a.items
    requires b.open.Some? && b.open.value.item.kind == kind && b.open.value.item.text == ""
    ensures PageOf(b) == PageOf(a).Grow(kind, "")
  {
  }

  lemma PageGrown(a: Client, b: Client, kind: Kind, text: string)
    requires a.open.Some? && a.open.value.item.kind == kind && HasPart(kind) && b.items == a.items
    requires b.open.Some? && b.open.value.item.kind == kind && b.open.value.item.text == a.open.value.item.text + text
    ensures PageOf(b) == PageOf(a).Grow(kind, text)
  {
  }

  lemma PageClosed(a: Client, b: Client)
    requires a.open.Some? && b.open == None && b.items == a.items + [a.open.value.item]
    ensures PageOf(b) == PageOf(a).Close()
  {
  }

  lemma PageAdded(a: Client, b: Client, call: Item)
    requires a.open == None && b.open == None && !HasPart(call.kind) && b.items == a.items + [call]
    ensures PageOf(b) == PageOf(a).Add(call)
  {
  }

  lemma GrowTwice(page: Page, kind: Kind, a: string, b: string)
    ensures page.Grow(kind, a).Grow(kind, b) == page.Grow(kind, a + b)
  {
    if page.Writes(kind) { ConcatAssociative(page.open.value.text, a, b); }
  }

  lemma GrowNothing(page: Page, kind: Kind)
    requires page.Writes(kind)
    ensures page.Grow(kind, "") == page
  {
    assert page.open.value.text + "" == page.open.value.text;
  }

  /** What is said, laid out in items: text as long as it is of one kind, and each call on its own. */
  function Lay(said: seq<Spoken>): Page {
    if said == [] then Page([], None)
    else
      var page := Lay(said[..|said| - 1]);
      match said[|said| - 1]
      case Visible(ch) => page.Grow(Message, [ch])
      case Thought(ch) => page.Grow(Reasoning, [ch])
      case Called(item) => page.Add(item)
  }

  lemma LayCall(said: seq<Spoken>, call: Item)
    ensures Lay(said + [Called(call)]) == Lay(said).Add(call)
  {
    assert (said + [Called(call)])[..|said|] == said;
  }

  lemma LayChar(said: seq<Spoken>, ch: char, thought: bool)
    ensures Lay(said + Chars([ch], thought)) == Lay(said).Grow(if thought then Reasoning else Message, [ch])
  {
    assert (said + Chars([ch], thought))[..|said|] == said;
  }

  lemma {:induction false} LayChars(said: seq<Spoken>, text: string, thought: bool)
    requires text != ""
    ensures Lay(said + Chars(text, thought)) == Lay(said).Grow(if thought then Reasoning else Message, text)
  {
    hide Lay, Page.Grow;
    var init, last := text[..|text| - 1], text[|text| - 1];
    if init == "" {
      assert text == [last];
      LayChar(said, last, thought);
    } else {
      assert text == init + [last];
      LayChars(said, init, thought);
      CharsConcat<Item>(init, [last], thought);
      hide Chars;
      assert said + Chars(text, thought) == (said + Chars(init, thought)) + Chars([last], thought);
      LayChar(said + Chars(init, thought), last, thought);
      GrowTwice(Lay(said), if thought then Reasoning else Message, init, [last]);
    }
  }

  // ---------------------------------------------------------------- uninterrupted text is one item

  /** No text is empty, and no two neighbours are texts of one kind. */
  predicate Joined(parts: seq<Part>) {
    && (forall i :: 0 <= i < |parts| && parts[i].Words? ==> parts[i].text != "")
    && forall i :: 0 < i < |parts| && parts[i].Words? ==> !(parts[i - 1].Words? && parts[i - 1].kind == parts[i].kind)
  }

  /** An item is open unless a call came last. */
  predicate IsLaid(page: Page) {
    Joined(page.Close().parts) && (page.open.None? && page.parts != [] ==> page.parts[|page.parts| - 1].Call?)
  }

  lemma {:induction false} LayIsJoined(said: seq<Spoken>)
    ensures IsLaid(Lay(said))
  {
    if said != [] {
      var page := Lay(said[..|said| - 1]);
      LayIsJoined(said[..|said| - 1]);
      hide Lay;
      match said[|said| - 1]
      case Visible(ch) => GrowIsJoined(page, Message, [ch]);
      case Thought(ch) => GrowIsJoined(page, Reasoning, [ch]);
      case Called(item) => AddIsJoined(page, item);
    }
  }

  lemma GrowIsJoined(page: Page, kind: Kind, text: string)
    requires IsLaid(page) && text != ""
    ensures IsLaid(page.Grow(kind, text))
  {
    var before, after := page.Close().parts, page.Grow(kind, text).Close().parts;
    assert forall i :: 0 <= i < |after| - 1 ==> after[i] == before[i];
    assert after[|after| - 1].Words? && after[|after| - 1].kind == kind && after[|after| - 1].text != "";
    if page.Writes(kind) { assert before[|before| - 1] == page.open.value; }
  }

  lemma AddIsJoined(page: Page, call: Item)
    requires IsLaid(page)
    ensures IsLaid(page.Add(call))
  {
  }
}
