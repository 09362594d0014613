/**
 One hop of auto-continue (proxy/auto_continue.go): the text of one upstream call on its way to
 the client.  The first hop passes everything through and only records the answer; a continuation
 drops reasoning, holds its opening text back and cuts what repeats the end of the answer.
 */
module Continuation {
  import opened Text
  import opened Speech
  import opened ThinkingSplit
  import opened Overlap

  /** The upstream callbacks that carry text or a tool call; a call is known by its id. */
  datatype Delivery = TextDelivery(text: string, isThinking: bool) | ToolDelivery(call: string)

  /** What reaches the client's callbacks. */
  datatype Sent = SentText(text: string, isThinking: bool) | SentTool(call: string)

  type Spoken = Said<string>

  /** What the client was told, character by character, with the calls in their places. */
  function Line(sent: seq<Sent>): seq<Spoken> {
    Collect(sent, SpokenOf)
  }

  function SpokenOf(s: Sent): seq<Spoken> {
    match s
    case SentText(text, isThinking) => if isThinking then Chars(text, true) else Shown(text)
    case SentTool(call) => [Called(call)]
  }

  function Shown(text: string): (line: seq<Spoken>)
    ensures |line| == |text|
  {
    Chars(text, false)
  }

  lemma ShownConcat(a: string, b: string)
    ensures Shown(a + b) == Shown(a) + Shown(b) && |Shown(a)| == |a| && Shown("") == []
  {
    CharsConcat<string>(a, b, false);
  }

  lemma ShownDrop(text: string, n: nat)
    requires n <= |text|
    ensures Shown(text[n..]) == Shown(text)[n..]
  {
  }

  lemma LineSnoc(sent: seq<Sent>, s: Sent)
    ensures Line(sent + [s]) == Line(sent) + SpokenOf(s)
  {
    CollectConcat(sent, [s], SpokenOf);
    CollectOne(s, SpokenOf);
  }

  function AnswerSent(sent: seq<Sent>): string {
    Collect(sent, (s: Sent) => if s.SentText? && !s.isThinking then s.text else "")
  }

  lemma AnswerSentSnoc(sent: seq<Sent>, s: Sent)
    ensures AnswerSent(sent + [s]) == AnswerSent(sent) + if s.SentText? && !s.isThinking then s.text else ""
  {
    CollectConcat(sent, [s], (s: Sent) => if s.SentText? && !s.isThinking then s.text else "");
    CollectOne(s, (s: Sent) => if s.SentText? && !s.isThinking then s.text else "");
  }

  /** The answer text in a list of splitter segments. */
  function AnswerSegments(segments: seq<Segment>): string {
    Only(SegmentMarks(segments), false)
  }

  function Answer(seg: Segment): string {
    if seg.thinking then "" else seg.text
  }

  lemma AnswerSegmentsSnoc(segments: seq<Segment>, i: nat)
    requires i < |segments|
    ensures AnswerSegments(segments[..i + 1]) == AnswerSegments(segments[..i]) + Answer(segments[i])
  {
    hide Only, SegmentMarks;
    assert segments[..i + 1] == segments[..i] + [segments[i]];
    SegmentMarksConcat(segments[..i], [segments[i]]);
    OneSegment(segments[i]);
    OnlyConcat(SegmentMarks(segments[..i]), SegmentMarks([segments[i]]), false);
    OnlyMarks(segments[i].text, segments[i].thinking, false);
  }

  // ---------------------------------------------------------------- what a hop should deliver

  /**
   The answer text of a hop, reasoning removed: `sofar` came since the splitter was last flushed,
   which a tool call does on a continuation without closing the block it interrupts.
   */
  function HopText(continuation: bool, deliveries: seq<Delivery>, sofar: string, block: bool): string
    decreases |deliveries|
  {
    if deliveries == [] then Only(Scan(sofar, block), false)
    else
      match deliveries[0]
      case TextDelivery(text, isThinking) =>
        HopText(continuation, deliveries[1..], if isThinking then sofar else sofar + text, block)
      case ToolDelivery(_) =>
        if continuation then
          Only(Scan(sofar, block), false) + HopText(continuation, deliveries[1..], "", ScanEnd(sofar, block))
        else
          HopText(continuation, deliveries[1..], sofar, block)
  }

  /** The part of a hop before its first tool call: what its opening text is judged on. */
  function Opening(deliveries: seq<Delivery>): seq<Delivery> {
    if deliveries == [] || deliveries[0].ToolDelivery? then [] else [deliveries[0]] + Opening(deliveries[1..])
  }

  function ToolCount(deliveries: seq<Delivery>): nat {
    if deliveries == [] then 0 else (if deliveries[0].ToolDelivery? then 1 else 0) + ToolCount(deliveries[1..])
  }

  /** Whether a hop ends inside a thinking block. */
  function HopOpen(continuation: bool, deliveries: seq<Delivery>, sofar: string, block: bool): bool
    decreases |deliveries|
  {
    if deliveries == [] then ScanEnd(sofar, block)
    else
      match deliveries[0]
      case TextDelivery(text, isThinking) =>
        HopOpen(continuation, deliveries[1..], if isThinking then sofar else sofar + text, block)
      case ToolDelivery(_) =>
        if continuation then HopOpen(continuation, deliveries[1..], "", ScanEnd(sofar, block))
        else HopOpen(continuation, deliveries[1..], sofar, block)
  }

  /** What the first hop sends: every callback as it came. */
  function PassedThrough(deliveries: seq<Delivery>): seq<Sent> {
    Collect(deliveries, (d: Delivery) => [SentOf(d)])
  }

  function SentOf(d: Delivery): Sent {
    match d
    case TextDelivery(text, isThinking) => SentText(text, isThinking)
    case ToolDelivery(call) => SentTool(call)
  }

  /** The text a continuation adds to the answer: its own, less what its opening repeats of the tail. */
  function Continued(tail: string, deliveries: seq<Delivery>): string {
    var text, opening := HopText(true, deliveries, "", false), HopText(true, Opening(deliveries), "", false);
    OpeningIsPrefix(deliveries, "", false);
    text[DropCount(tail, opening)..]
  }

  lemma {:induction false} OpeningIsPrefix(deliveries: seq<Delivery>, sofar: string, block: bool)
    ensures HopText(true, Opening(deliveries), sofar, block) <= HopText(true, deliveries, sofar, block)
    decreases |deliveries|
  {
    hide Scan, ScanEnd, Only;
    if deliveries != [] && deliveries[0].TextDelivery? {
      var d := deliveries[0];
      assert Opening(deliveries)[1..] == Opening(deliveries[1..]);
      OpeningIsPrefix(deliveries[1..], if d.isThinking then sofar else sofar + d.text, block);
    }
  }

  /**
   All a continuation has to say, `sofar` having come since the last call: the answer text of each
   stretch between calls, and each call in its place.  There is no reasoning in it.
   */
  function HopLine(deliveries: seq<Delivery>, sofar: string, block: bool): seq<Spoken>
    decreases |deliveries|
  {
    if deliveries == [] then Stretch(sofar, block)
    else
      match deliveries[0]
      case TextDelivery(text, isThinking) =>
        HopLine(deliveries[1..], if isThinking then sofar else sofar + text, block)
      case ToolDelivery(call) =>
        Stretch(sofar, block) + [Called(call)] + HopLine(deliveries[1..], "", ScanEnd(sofar, block))
  }

  /** The answer text of one stretch. */
  function Stretch(text: string, block: bool): seq<Spoken> {
    Shown(Only(Scan(text, block), false))
  }

  /** What a continuation tells the client: all of it, less what its opening repeats of the tail. */
  function ContinuedLine(tail: string, deliveries: seq<Delivery>): seq<Spoken> {
    var line, opening := HopLine(deliveries, "", false), HopText(true, Opening(deliveries), "", false);
    LineBegins(deliveries, "", false);
    line[DropCount(tail, opening)..]
  }

  /** The opening text comes first, before any call. */
  lemma {:induction false} LineBegins(deliveries: seq<Delivery>, sofar: string, block: bool)
    ensures Shown(HopText(true, Opening(deliveries), sofar, block)) <= HopLine(deliveries, sofar, block)
    decreases |deliveries|
  {
    hide Scan, ScanEnd, Only;
    if deliveries != [] && deliveries[0].TextDelivery? {
      var d := deliveries[0];
      assert Opening(deliveries)[1..] == Opening(deliveries[1..]);
      LineBegins(deliveries[1..], if d.isThinking then sofar else sofar + d.text, block);
    }
  }

  /** The calls of a hop, and those the client was told of. */
  function ToolCalls(deliveries: seq<Delivery>): seq<string> {
    Collect(deliveries, ToolIn)
  }

  function CallsIn(line: seq<Spoken>): seq<string> {
    Collect(line, CallIn)
  }

  function ToolIn(d: Delivery): seq<string> {
    if d.ToolDelivery? then [d.call] else []
  }

  function CallIn(x: Spoken): seq<string> {
    if x.Called? then [x.call] else []
  }

  ghost predicate Says(line: seq<Spoken>, text: string, calls: seq<string>) {
    SaidText(line, false) == text && SaidText(line, true) == "" && CallsIn(line) == calls
  }

  /** A continuation's line says its text, all of its calls in order and no reasoning. */
  lemma {:induction false} HopLineSays(deliveries: seq<Delivery>, sofar: string, block: bool)
    ensures Says(HopLine(deliveries, sofar, block), HopText(true, deliveries, sofar, block), ToolCalls(deliveries))
    decreases |deliveries|
  {
    hide Scan, ScanEnd, Only, Says;
    var text := Only(Scan(sofar, block), false);
    CharsSay(text);
    if deliveries != [] {
      match deliveries[0]
      case TextDelivery(more, isThinking) =>
        HopLineSays(deliveries[1..], if isThinking then sofar else sofar + more, block);
        assert [] + ToolCalls(deliveries[1..]) == ToolCalls(deliveries[1..]);
      case ToolDelivery(call) =>
        var rest, end := deliveries[1..], ScanEnd(sofar, block);
        HopLineSays(rest, "", end);
        hide HopLine, HopText, ToolCalls;
        CallSays(Shown(text), text, call, HopLine(rest, "", end), HopText(true, rest, "", end), ToolCalls(rest));
    }
  }

  lemma {:induction false} CharsSay(text: string)
    ensures Says(Shown(text), text, [])
  {
    SaidTextOfChars<string>(text, false, false);
    SaidTextOfChars<string>(text, false, true);
    NoCallsIn(Shown(text));
  }

  lemma {:induction false} NoCallsIn(line: seq<Spoken>)
    requires forall i :: 0 <= i < |line| ==> !line[i].Called?
    ensures CallsIn(line) == []
  {
    if line != [] { NoCallsIn(line[1..]); }
  }

  lemma CallSays(before: seq<Spoken>, text: string, call: string, after: seq<Spoken>, more: string, calls: seq<string>)
    requires Says(before, text, []) && Says(after, more, calls)
    ensures Says(before + [Called(call)] + after, text + more, [call] + calls)
  {
    OneCallSays(Called(call));
    LinesSay(before, text, [], [Called(call)], "", [call]);
    assert text + "" == text && [] + [call] == [call];
    LinesSay(before + [Called(call)], text, [call], after, more, calls);
  }

  lemma OneCallSays(called: Spoken)
    requires called.Called?
    ensures Says([called], "", [called.call])
  {
    assert [called][..0] == [];
    CollectOne(called, CallIn);
  }

  lemma LinesSay(a: seq<Spoken>, textA: string, callsA: seq<string>, b: seq<Spoken>, textB: string, callsB: seq<string>)
    requires Says(a, textA, callsA) && Says(b, textB, callsB)
    ensures Says(a + b, textA + textB, callsA + callsB)
  {
    hide SaidText;
    SaidTextConcat(a, b, false);
    SaidTextConcat(a, b, true);
    CollectConcat(a, b, CallIn);
  }

  /**
   What a continuation tells: its text without the repeated opening, all of its calls in order, no
   reasoning.
   */
  lemma ContinuedLineSays(tail: string, deliveries: seq<Delivery>)
    ensures Says(ContinuedLine(tail, deliveries), Continued(tail, deliveries), ToolCalls(deliveries))
  {
    hide HopLine, HopText, DropCount, Opening, ToolCalls;
    var line, opening := HopLine(deliveries, "", false), HopText(true, Opening(deliveries), "", false);
    var n := DropCount(tail, opening);
    LineBegins(deliveries, "", false);
    HopLineSays(deliveries, "", false);
    var cut := opening[..n];
    assert line[..n] == Shown(cut);
    assert line == Shown(cut) + line[n..];
    RestSays(cut, line[n..], HopText(true, deliveries, "", false), ToolCalls(deliveries));
  }

  lemma RestSays(cut: string, rest: seq<Spoken>, text: string, calls: seq<string>)
    requires Says(Shown(cut) + rest, text, calls)
    ensures |cut| <= |text| && Says(rest, text[|cut|..], calls)
  {
    hide SaidText;
    CharsSay(cut);
    SaidTextConcat(Shown(cut), rest, false);
    SaidTextConcat(Shown(cut), rest, true);
    CollectConcat(Shown(cut), rest, CallIn);
    assert text == cut + SaidText(rest, false);
  }

  /** Without tool calls a hop's text is the reference answer of all its text joined. */
  lemma {:induction false} HopTextWithoutTools(continuation: bool, deliveries: seq<Delivery>, sofar: string)
    requires ToolCount(deliveries) == 0
    ensures HopText(continuation, deliveries, sofar, false) == AnswerOf(sofar + RawText(deliveries))
    ensures Opening(deliveries) == deliveries
    decreases |deliveries|
  {
    hide Scan, Only;
    if deliveries == [] {
      assert sofar + RawText(deliveries) == sofar;
    } else {
      var d := deliveries[0];
      var piece := if d.isThinking then "" else d.text;
      HopTextWithoutTools(continuation, deliveries[1..], sofar + piece);
      ConcatAssociative(sofar, piece, RawText(deliveries[1..]));
      assert d.isThinking ==> sofar + piece == sofar;
    }
  }

  /** The answer-channel text of a hop as it came, tags included. */
  function RawText(deliveries: seq<Delivery>): string {
    Collect(deliveries, (d: Delivery) => if d.TextDelivery? && !d.isThinking then d.text else "")
  }

  // ---------------------------------------------------------------- the code

  /**
   `delivered` is the answer text the splitter has let through, `told` the same with the calls in
   their places, and `compared` the part of the text the hop looked at to decide how much repeats the tail.
   */
  class ContinuationHop {
    const continuation: bool
    const tail: string
    const splitter: ThinkingTagSplitter
    var answer: string
    var held: string
    var released: bool
    var toolCount: nat
    var sent: seq<Sent>
    ghost var delivered: string
    ghost var compared: string
    ghost var told: seq<Spoken>

    ghost predicate Valid()
      reads this, splitter
    {
      && splitter.Valid()
      && (!continuation ==> answer == delivered && held == "" && !released)
      && (continuation ==> answer == AnswerSent(sent))
      && (continuation && !released ==>
            && answer == "" && held == delivered && (held == "" || |held| < |tail|)
            && sent == [] && told == Shown(held))
      && (continuation && released ==>
            && held == ""
            && compared <= delivered
            && answer == delivered[DropCount(tail, compared)..]
            && Shown(compared) <= told
            && Line(sent) == told[DropCount(tail, compared)..])
    }

    constructor (continuation: bool, tail: string)
      ensures Valid() && fresh(splitter)
      ensures this.continuation == continuation && this.tail == tail
      ensures answer == "" && delivered == "" && told == [] && sent == [] && !released && toolCount == 0
      ensures splitter.buf == "" && !splitter.inBlock
    {
      this.continuation, this.tail := continuation, tail;
      splitter := new ThinkingTagSplitter();
      answer, held, released, toolCount, sent := "", "", false, 0, [];
      delivered, compared, told := "", "", [];
    }

    method Forward(s: Sent)
      modifies this`sent
      ensures sent == old(sent) + [s] && Line(sent) == old(Line(sent)) + SpokenOf(s)
      ensures AnswerSent(sent) == old(AnswerSent(sent)) + if s.SentText? && !s.isThinking then s.text else ""
    {
      AnswerSentSnoc(sent, s);
      LineSnoc(sent, s);
      sent := sent + [s];
    }

    /** One piece of answer text from the splitter of a continuation hop. */
    method ForwardAnswer(text: string)
      requires Valid() && continuation
      modifies this
      ensures Valid() && toolCount == old(toolCount)
      ensures delivered == old(delivered) + text && told == old(told) + Shown(text)
      ensures old(released) ==> released && compared == old(compared)
      ensures released && !old(released) ==> compared == delivered && |compared| >= |tail|
    {
      hide AnswerSent, DropCount, Line, Shown;
      ShownConcat(held, text);
      delivered, told := delivered + text, told + Shown(text);
      if !released {
        held := held + text;
        if |held| < |tail| { return; }
        ReleaseHeld();
        return;
      }
      answer := answer + text;
      Forward(SentText(text, false));
    }

    /** Sends the held opening text minus what it repeats of the answer's end. */
    method ReleaseHeld()
      requires splitter.Valid() && continuation
      requires released ==> Valid()
      requires !released ==> answer == "" && sent == [] && held == delivered && told == Shown(held)
      modifies this
      ensures Valid() && released && toolCount == old(toolCount)
      ensures delivered == old(delivered) && told == old(told)
      ensures compared == if old(released) then old(compared) else delivered
    {
      NothingSent();
      hide AnswerSent, DropCount, Line, Shown;
      if released { return; }
      released := true;
      var text := held;
      held, compared := "", delivered;
      var n := RepeatedOverlap(tail, text);
      ShownDrop(text, n);
      if n > 0 {
        text := text[n..];
      }
      if text != "" {
        answer := answer + text;
        Forward(SentText(text, false));
      }
    }

    /** The splitter's sinks: reasoning has none here. */
    method ReceiveOne(seg: Segment)
      requires Valid()
      modifies this
      ensures Valid() && toolCount == old(toolCount)
      ensures delivered == old(delivered) + Answer(seg)
      ensures continuation ==> told == old(told) + Shown(Answer(seg))
      ensures !continuation ==> sent == old(sent)
      ensures old(released) ==> released && compared == old(compared)
      ensures released && !old(released) ==> compared == delivered && |compared| >= |tail|
    {
      hide AnswerSent, DropCount, Line, Shown;
      if !seg.thinking {
        if continuation {
          ForwardAnswer(seg.text);
        } else {
          answer, delivered := answer + seg.text, delivered + seg.text;
        }
      }
    }

    method Receive(segments: seq<Segment>)
      requires Valid()
      modifies this
      ensures Valid() && toolCount == old(toolCount)
      ensures delivered == old(delivered) + AnswerSegments(segments)
      ensures continuation ==> told == old(told) + Shown(AnswerSegments(segments))
      ensures !continuation ==> sent == old(sent)
      ensures old(released) ==> released && compared == old(compared)
      ensures released && !old(released) ==> compared <= delivered && |compared| >= |tail|
    {
      hide AnswerSent, DropCount, AnswerSegments, Answer, Line, Valid, Shown;
      NoSegments();
      assert segments[..0] == [];
      var i := 0;
      while i < |segments|
        invariant 0 <= i <= |segments|
        invariant Valid() && toolCount == old(toolCount)
        invariant delivered == old(delivered) + AnswerSegments(segments[..i])
        invariant continuation ==> told == old(told) + Shown(AnswerSegments(segments[..i]))
        invariant !continuation ==> sent == old(sent)
        invariant old(released) ==> released && compared == old(compared)
        invariant released && !old(released) ==> compared <= delivered && |compared| >= |tail|
      {
        AnswerSegmentsSnoc(segments, i);
        ShownConcat(AnswerSegments(segments[..i]), Answer(segments[i]));
        ReceiveOne(segments[i]);
        i := i + 1;
      }
      assert segments[..|segments|] == segments;
    }

    /** OnText. */
    method OnText(text: string, isThinking: bool)
      requires Valid()
      modifies this, splitter
      ensures Valid() && toolCount == old(toolCount)
      ensures !continuation ==> sent == old(sent) + [SentText(text, isThinking)]
      ensures old(released) ==> released && compared == old(compared)
      ensures released && !old(released) ==> compared <= delivered && |compared| >= |tail|
      ensures isThinking ==> delivered == old(delivered) && told == old(told)
      ensures continuation && isThinking ==> sent == old(sent)
      ensures isThinking ==> splitter.buf == old(splitter.buf) && splitter.inBlock == old(splitter.inBlock)
      ensures continuation && !isThinking ==>
                told == old(told)
                        + Shown(Only(Settled(old(splitter.buf) + text, old(splitter.inBlock)), false))
      ensures !isThinking ==>
                && delivered == old(delivered) + Only(Settled(old(splitter.buf) + text, old(splitter.inBlock)), false)
                && splitter.buf == Pending(old(splitter.buf) + text, old(splitter.inBlock))
                && splitter.inBlock == PendingBlock(old(splitter.buf) + text, old(splitter.inBlock))
    {
      hide AnswerSent, DropCount, Only, SegmentMarks, Settled, Pending, PendingBlock, TagFor, Line, Shown;
      if isThinking {
        if !continuation {
          Forward(SentText(text, true));
        }
        return;
      }
      var segments := splitter.Push(text);
      Receive(segments);
      if !continuation {
        Forward(SentText(text, false));
      }
    }

    /** Releases what is held; reports whether the hop ended inside a thinking block. */
    method Flush() returns (openThinking: bool)
      requires Valid()
      modifies this, splitter
      ensures Valid() && toolCount == old(toolCount)
      ensures openThinking == old(splitter.inBlock) == splitter.inBlock && splitter.buf == ""
      ensures delivered == old(delivered) + Only(Marks(old(splitter.buf), old(splitter.inBlock)), false)
      ensures !continuation ==> sent == old(sent)
      ensures continuation ==> released
      ensures continuation ==>
                told == old(told) + Shown(Only(Marks(old(splitter.buf), old(splitter.inBlock)), false))
      ensures old(released) ==> compared == old(compared)
      ensures continuation && !old(released) ==>
                compared <= delivered && (|compared| >= |tail| || compared == delivered)
    {
      hide AnswerSent, DropCount, Only, SegmentMarks, TagFor, Line, Shown;
      openThinking := splitter.inBlock;
      var segments := splitter.Flush();
      Receive(segments);
      if continuation {
        ReleaseHeld();
      }
    }

    /**
     OnToolUse: on a continuation, held text reaches the client before the tool block, which is the last
     thing sent.
     */
    method OnToolUse(call: string)
      requires Valid()
      modifies this, splitter
      ensures Valid() && toolCount == old(toolCount) + 1
      ensures splitter.inBlock == old(splitter.inBlock)
      ensures !continuation ==>
                && sent == old(sent) + [SentTool(call)] && delivered == old(delivered)
                && splitter.buf == old(splitter.buf)
      ensures continuation ==>
                && released && splitter.buf == ""
                && delivered == old(delivered) + Only(Marks(old(splitter.buf), old(splitter.inBlock)), false)
                && told == old(told) + Shown(Only(Marks(old(splitter.buf), old(splitter.inBlock)), false))
                           + [Called(call)]
                && sent != [] && sent[|sent| - 1] == SentTool(call)
      ensures old(released) ==> compared == old(compared)
      ensures continuation && !old(released) ==>
                compared <= delivered && (|compared| >= |tail| || compared == delivered)
    {
      hide Valid, AnswerSent, DropCount, Only, TagFor, Line, Shown;
      if continuation {
        var _ := Flush();
      }
      ForwardTool(call);
    }

    method ForwardTool(call: string)
      requires Valid() && (continuation ==> released)
      modifies this`toolCount, this`sent, this`told
      ensures Valid() && toolCount == old(toolCount) + 1
      ensures sent == old(sent) + [SentTool(call)] && told == old(told) + [Called(call)]
    {
      hide AnswerSent, DropCount, Line, Shown;
      toolCount := toolCount + 1;
      Forward(SentTool(call));
      told := told + [Called(call)];
    }
  }

  lemma NoSegments()
    ensures AnswerSegments([]) == ""
  {
  }

  lemma NothingSent()
    ensures AnswerSent([]) == "" && Line([]) == []
  {
  }

  // ---------------------------------------------------------------- whole hops

  lemma StretchFlushed(before: string, sofar: string, block: bool)
    ensures before + Only(Settled(sofar, block), false)
              + Only(Marks(Pending(sofar, block), PendingBlock(sofar, block)), false)
         == before + Only(Scan(sofar, block), false)
    ensures PendingBlock(sofar, block) == ScanEnd(sofar, block)
  {
    hide Scan, ScanEnd, Settled, Pending, PendingBlock, Only;
    ScanIsSettledThenPending(sofar, block);
    OnlyConcat(Settled(sofar, block), Marks(Pending(sofar, block), PendingBlock(sofar, block)), false);
    ConcatAssociative(before, Only(Settled(sofar, block), false),
                      Only(Marks(Pending(sofar, block), PendingBlock(sofar, block)), false));
  }

  lemma StretchGrows(before: string, sofar: string, block: bool, text: string)
    ensures var p, b := Pending(sofar, block), PendingBlock(sofar, block);
            && before + Only(Settled(sofar, block), false) + Only(Settled(p + text, b), false)
            == before + Only(Settled(sofar + text, block), false)
            && Pending(sofar + text, block) == Pending(p + text, b)
            && PendingBlock(sofar + text, block) == PendingBlock(p + text, b)
  {
    hide Settled, Pending, PendingBlock, Only;
    var p, b := Pending(sofar, block), PendingBlock(sofar, block);
    SettledExtends(sofar, block, text);
    OnlyConcat(Settled(sofar, block), Settled(p + text, b), false);
    ConcatAssociative(before, Only(Settled(sofar, block), false), Only(Settled(p + text, b), false));
  }

  /** The same for the line of text and calls. */
  lemma LineFlushed(line: seq<Spoken>, sofar: string, block: bool)
    ensures line + Shown(Only(Settled(sofar, block), false))
              + Shown(Only(Marks(Pending(sofar, block), PendingBlock(sofar, block)), false))
         == line + Stretch(sofar, block)
  {
    hide Scan, Settled, Pending, PendingBlock, Only, Marks;
    StretchFlushed("", sofar, block);
    CharsAfter(line, Only(Settled(sofar, block), false),
               Only(Marks(Pending(sofar, block), PendingBlock(sofar, block)), false), Only(Scan(sofar, block), false));
  }

  lemma LineGrows(line: seq<Spoken>, sofar: string, block: bool, text: string)
    ensures var p, b := Pending(sofar, block), PendingBlock(sofar, block);
            line + Shown(Only(Settled(sofar, block), false)) + Shown(Only(Settled(p + text, b), false))
            == line + Shown(Only(Settled(sofar + text, block), false))
  {
    hide Settled, Pending, PendingBlock, Only;
    StretchGrows("", sofar, block, text);
    CharsAfter(line, Only(Settled(sofar, block), false),
               Only(Settled(Pending(sofar, block) + text, PendingBlock(sofar, block)), false),
               Only(Settled(sofar + text, block), false));
  }

  lemma CharsAfter(line: seq<Spoken>, a: string, b: string, both: string)
    requires "" + a + b == "" + both
    ensures line + Shown(a) + Shown(b) == line + Shown(both)
  {
    hide Shown;
    assert "" + a + b == a + b && "" + both == both;
    ShownConcat(a, b);
    ConcatAssociative(line, Shown(a), Shown(b));
  }

  lemma PassedThroughSnoc(deliveries: seq<Delivery>, i: nat)
    requires i < |deliveries|
    ensures PassedThrough(deliveries[..i + 1]) == PassedThrough(deliveries[..i]) + [SentOf(deliveries[i])]
  {
    assert deliveries[..i + 1] == deliveries[..i] + [deliveries[i]];
    CollectConcat(deliveries[..i], [deliveries[i]], (d: Delivery) => [SentOf(d)]);
    CollectOne(deliveries[i], (d: Delivery) => [SentOf(d)]);
  }

  lemma DropCountAgrees(tail: string, compared: string, opening: string)
    requires compared <= opening && (|compared| >= |tail| || compared == opening)
    ensures DropCount(tail, compared) == DropCount(tail, opening)
  {
    hide DropCount;
    if compared != opening {
      assert opening == compared + opening[|compared|..];
      DropCountIsSettled(tail, compared, opening[|compared|..]);
    }
  }

  /**
   Between callbacks: `before` was delivered up to the last flush of the splitter, `line` is that with
   the calls, and `sofar` has come since.
   */
  datatype Reader = Reader(before: string, line: seq<Spoken>, sofar: string, block: bool)

  const READER_AT_START := Reader("", [], "", false)

  ghost predicate Reading(hop: ContinuationHop, deliveries: seq<Delivery>, rest: seq<Delivery>, r: Reader)
    reads hop, hop.splitter
  {
    ReadingText(hop, deliveries, rest, r) && (hop.continuation ==> ReadingLine(hop, deliveries, rest, r))
  }

  ghost predicate ReadingText(hop: ContinuationHop, deliveries: seq<Delivery>, rest: seq<Delivery>, r: Reader)
    reads hop, hop.splitter
  {
    var opening := HopText(true, Opening(deliveries), "", false);
    && hop.Valid()
    && hop.delivered == r.before + Only(Settled(r.sofar, r.block), false)
    && hop.splitter.buf == Pending(r.sofar, r.block) && hop.splitter.inBlock == PendingBlock(r.sofar, r.block)
    && HopText(hop.continuation, deliveries, "", false)
       == r.before + HopText(hop.continuation, rest, r.sofar, r.block)
    && HopOpen(hop.continuation, deliveries, "", false) == HopOpen(hop.continuation, rest, r.sofar, r.block)
    && ToolCount(deliveries) == hop.toolCount + ToolCount(rest)
    && (hop.toolCount == 0 ==> r.before == "" && opening == HopText(true, Opening(rest), r.sofar, r.block))
    && (hop.toolCount == 0 && hop.released ==> |hop.compared| >= |hop.tail|)
    && (hop.toolCount > 0 && hop.continuation ==>
          hop.released && DropCount(hop.tail, hop.compared) == DropCount(hop.tail, opening))
  }

  ghost predicate ReadingLine(hop: ContinuationHop, deliveries: seq<Delivery>, rest: seq<Delivery>, r: Reader)
    reads hop
  {
    && hop.told == r.line + Shown(Only(Settled(r.sofar, r.block), false))
    && HopLine(deliveries, "", false) == r.line + HopLine(rest, r.sofar, r.block)
  }

  /** One callback of the hop. */
  method DeliverOne(hop: ContinuationHop, d: Delivery, ghost deliveries: seq<Delivery>, ghost rest: seq<Delivery>,
                    ghost r: Reader)
      returns (ghost r': Reader)
    requires rest != [] && rest[0] == d && Reading(hop, deliveries, rest, r)
    modifies hop, hop.splitter
    ensures Reading(hop, deliveries, rest[1..], r')
    ensures !hop.continuation ==> hop.sent == old(hop.sent) + [SentOf(d)]
  {
    hide Scan, ScanEnd, Settled, Pending, PendingBlock, Only, DropCount, AnswerSent, TagFor, Line, Stretch, Shown;
    match d {
      case TextDelivery(text, isThinking) =>
        OpeningStep(rest, r.sofar, r.block);
        StretchGrows(r.before, r.sofar, r.block, text);
        LineGrows(r.line, r.sofar, r.block, text);
        hop.OnText(text, isThinking);
        r' := r.(sofar := if isThinking then r.sofar else r.sofar + text);
      case ToolDelivery(call) =>
        r' := DeliverTool(hop, call, deliveries, rest, r);
    }
  }

  method DeliverTool(hop: ContinuationHop, call: string, ghost deliveries: seq<Delivery>, ghost rest: seq<Delivery>,
                     ghost r: Reader)
      returns (ghost r': Reader)
    requires rest != [] && rest[0] == ToolDelivery(call) && Reading(hop, deliveries, rest, r)
    modifies hop, hop.splitter
    ensures Reading(hop, deliveries, rest[1..], r')
    ensures !hop.continuation ==> hop.sent == old(hop.sent) + [SentTool(call)]
  {
    hide Scan, ScanEnd, Settled, Pending, PendingBlock, Only, DropCount, AnswerSent, TagFor, Line, Stretch, Shown;
    StretchFlushed(r.before, r.sofar, r.block);
    LineFlushed(r.line, r.sofar, r.block);
    r' := r;
    ghost var opening, first := HopText(true, Opening(deliveries), "", false), hop.toolCount == 0;
    hop.OnToolUse(call);
    if hop.continuation {
      if first {
        assert opening == "" + Only(Scan(r.sofar, r.block), false);
        DropCountAgrees(hop.tail, hop.compared, opening);
      }
      ghost var text, end := Only(Scan(r.sofar, r.block), false), ScanEnd(r.sofar, r.block);
      ConcatAssociative(r.before, text, HopText(true, rest[1..], "", end));
      LineOfCall(r.line, call, rest, r.sofar, r.block);
      r' := Reader(hop.delivered, hop.told, "", end);
      NothingReadYet(end);
    }
  }

  lemma LineOfCall(line: seq<Spoken>, call: string, rest: seq<Delivery>, sofar: string, block: bool)
    requires rest != [] && rest[0] == ToolDelivery(call)
    ensures line + HopLine(rest, sofar, block)
            == line + Stretch(sofar, block) + [Called(call)] + HopLine(rest[1..], "", ScanEnd(sofar, block))
  {
    hide Stretch, ScanEnd;
  }

  method DeliverCallbacks(hop: ContinuationHop, deliveries: seq<Delivery>) returns (ghost r: Reader)
    requires hop.Valid() && hop.delivered == "" && hop.told == [] && hop.sent == []
    requires !hop.released && hop.toolCount == 0 && hop.splitter.buf == "" && !hop.splitter.inBlock
    modifies hop, hop.splitter
    ensures Reading(hop, deliveries, [], r)
    ensures !hop.continuation ==> hop.sent == PassedThrough(deliveries)
  {
    hide Scan, ScanEnd, Settled, Pending, PendingBlock, Only, DropCount, AnswerSent, TagFor, PassedThrough, Line, Shown;
    DeliverStart();
    r := READER_AT_START;
    assert deliveries[0..] == deliveries && deliveries[..0] == [];
    var i := 0;
    while i < |deliveries|
      invariant 0 <= i <= |deliveries|
      invariant Reading(hop, deliveries, deliveries[i..], r)
      invariant !hop.continuation ==> hop.sent == PassedThrough(deliveries[..i])
    {
      hide Reading;
      PassedThroughSnoc(deliveries, i);
      assert deliveries[i..][1..] == deliveries[i + 1..];
      r := DeliverOne(hop, deliveries[i], deliveries, deliveries[i..], r);
      i := i + 1;
    }
    assert deliveries[..|deliveries|] == deliveries && deliveries[|deliveries|..] == [];
  }

  /**
   The callbacks of one upstream call, then the final flush unless the call's error is returned
   at once (`finish` is false).  Whatever the cuts: a continuation tells the client exactly
   `ContinuedLine`, text and calls in their order, or a start of it when cut short; the first hop sends
   everything as it came and records the reference answer.
   */
  method Deliver(hop: ContinuationHop, deliveries: seq<Delivery>, finish: bool) returns (openThinking: bool)
    requires hop.Valid() && hop.delivered == "" && hop.told == [] && hop.sent == []
    requires !hop.released && hop.toolCount == 0 && hop.splitter.buf == "" && !hop.splitter.inBlock
    modifies hop, hop.splitter
    ensures hop.toolCount == ToolCount(deliveries)
    ensures finish ==> openThinking == HopOpen(hop.continuation, deliveries, "", false)
    ensures finish && hop.continuation ==> hop.answer == AnswerSent(hop.sent) == Continued(hop.tail, deliveries)
    ensures finish && hop.continuation ==> Line(hop.sent) == ContinuedLine(hop.tail, deliveries)
    ensures !finish && hop.continuation ==> AnswerSent(hop.sent) <= Continued(hop.tail, deliveries)
    ensures !finish && hop.continuation ==> Line(hop.sent) <= ContinuedLine(hop.tail, deliveries)
    ensures finish && !hop.continuation ==> hop.answer == HopText(false, deliveries, "", false)
    ensures !hop.continuation ==> hop.sent == PassedThrough(deliveries)
  {
    ghost var opening := HopText(true, Opening(deliveries), "", false);
    LineBegins(deliveries, "", false);
    OpeningIsPrefix(deliveries, "", false);
    NothingSent();
    hide Scan, ScanEnd, Settled, Pending, PendingBlock, Only, DropCount, AnswerSent, TagFor, PassedThrough, Line,
      Stretch, Shown, HopText, HopLine, HopOpen, Opening, ToolCount;
    ghost var r := DeliverCallbacks(hop, deliveries);
    NothingToCome(r.sofar, r.block);
    StretchFlushed(r.before, r.sofar, r.block);
    LineFlushed(r.line, r.sofar, r.block);
    ghost var text := r.before + Only(Scan(r.sofar, r.block), false);
    if !finish {
      CutOff(hop, deliveries, r);
      return false;
    }
    openThinking := hop.Flush();
    if hop.continuation && hop.toolCount == 0 {
      DropCountAgrees(hop.tail, hop.compared, opening);
    }
  }

  /** A hop cut short has told a start of what is due. */
  lemma CutOff(hop: ContinuationHop, deliveries: seq<Delivery>, r: Reader)
    requires Reading(hop, deliveries, [], r)
    ensures hop.toolCount == ToolCount(deliveries)
    ensures hop.continuation ==> AnswerSent(hop.sent) <= Continued(hop.tail, deliveries)
    ensures hop.continuation ==> Line(hop.sent) <= ContinuedLine(hop.tail, deliveries)
  {
    var opening := HopText(true, Opening(deliveries), "", false);
    LineBegins(deliveries, "", false);
    OpeningIsPrefix(deliveries, "", false);
    NothingToCome(r.sofar, r.block);
    NothingSent();
    hide Scan, ScanEnd, Settled, Pending, PendingBlock, Only, DropCount, AnswerSent, TagFor, Line, Stretch, Shown,
      HopText, HopLine, HopOpen, Opening, ToolCount;
    StretchFlushed(r.before, r.sofar, r.block);
    LineFlushed(r.line, r.sofar, r.block);
    var text := r.before + Only(Scan(r.sofar, r.block), false);
    assert hop.delivered <= text && (hop.continuation ==> hop.told <= HopLine(deliveries, "", false));
    if hop.continuation && hop.released {
      assert hop.toolCount == 0 ==> opening == text;
      CutShort(hop.tail, hop.compared, hop.delivered, text, opening);
    }
  }

  lemma NothingToCome(sofar: string, block: bool)
    ensures forall continuation ::
              && HopText(continuation, [], sofar, block) == Only(Scan(sofar, block), false)
              && HopOpen(continuation, [], sofar, block) == ScanEnd(sofar, block)
    ensures HopLine([], sofar, block) == Stretch(sofar, block) && Opening([]) == [] && ToolCount([]) == 0
  {
    hide Scan, ScanEnd, Only, Stretch;
  }

  lemma CutShort(tail: string, compared: string, delivered: string, text: string, opening: string)
    requires compared <= delivered <= text
    requires opening <= text
    requires DropCount(tail, compared) == DropCount(tail, opening) || (opening == text && |compared| >= |tail|)
    ensures DropCount(tail, compared) == DropCount(tail, opening)
    ensures delivered[DropCount(tail, compared)..] <= text[DropCount(tail, opening)..]
  {
    hide DropCount;
    if opening == text && |compared| >= |tail| {
      DropCountAgrees(tail, compared, opening);
    }
  }

  lemma DeliverStart()
    ensures Only(Settled("", false), false) == "" && Pending("", false) == "" && !PendingBlock("", false)
    ensures PassedThrough([]) == []
  {
  }

  lemma NothingReadYet(block: bool)
    ensures Settled("", block) == [] && Pending("", block) == "" && PendingBlock("", block) == block
              && Only([], false) == ""
  {
    hide TagFor;
  }

  lemma OpeningStep(rest: seq<Delivery>, sofar: string, block: bool)
    requires rest != [] && rest[0].TextDelivery?
    ensures HopText(true, Opening(rest), sofar, block)
         == HopText(true, Opening(rest[1..]), if rest[0].isThinking then sofar else sofar + rest[0].text, block)
  {
    assert Opening(rest)[1..] == Opening(rest[1..]);
  }
}
