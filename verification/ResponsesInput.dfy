/**
 What comes into a Responses stream and what of it may pass (proxy/responses_api.go).  The input is
 read off the callbacks as it arrives, character by character; `Kept` says what the client is told:
 each text in its place among the calls, leading blanks dropped, reasoning from one source only.
 */
module ResponsesInput {
  import opened Text
  import opened Speech
  import opened ThinkingSplit
  import InlineSplit
  import opened ResponsesClient

  // ---------------------------------------------------------------- what comes in

  /** A character of the answer, of an inline thinking block or of a native reasoning event; or a call. */
  datatype Raw = AnswerChar(ch: char) | TaggedChar(ch: char) | NativeChar(ch: char) | ToolCall(item: Item)

  datatype Channel = Answers | Tags | Natives

  function RawChars(text: string, channel: Channel): (raw: seq<Raw>)
    ensures |raw| == |text|
    ensures forall i :: 0 <= i < |text| ==> raw[i] == RawChar(text[i], channel)
  {
    seq(|text|, i requires 0 <= i < |text| => RawChar(text[i], channel))
  }

  function RawChar(ch: char, channel: Channel): Raw {
    match channel
    case Answers => AnswerChar(ch)
    case Tags => TaggedChar(ch)
    case Natives => NativeChar(ch)
  }

  function RawMarks(marks: seq<Mark>): (raw: seq<Raw>)
    ensures |raw| == |marks|
    ensures forall i :: 0 <= i < |marks| ==>
              raw[i] == if marks[i].thinking then TaggedChar(marks[i].ch) else AnswerChar(marks[i].ch)
  {
    seq(|marks|, i requires 0 <= i < |marks| => if marks[i].thinking then TaggedChar(marks[i].ch)
        else AnswerChar(marks[i].ch))
  }

  lemma RawMarksConcat(a: seq<Mark>, b: seq<Mark>)
    ensures RawMarks(a + b) == RawMarks(a) + RawMarks(b)
  {
  }

  lemma RawMarksOfSegment(text: string, thinking: bool)
    ensures RawMarks(Marks(text, thinking)) == RawChars(text, if thinking then Tags else Answers)
  {
  }

  // ---------------------------------------------------------------- what may pass

  /** strings.TrimLeft with " \t\r\n". */
  predicate IsLeadBlank(ch: char) {
    ch == ' ' || ch == '\t' || ch == '\r' || ch == '\n'
  }

  function LeadTrim(s: string): string {
    if s != "" && IsLeadBlank(s[0]) then LeadTrim(s[1..]) else s
  }

  lemma {:induction false} LeadTrimSnoc(s: string, ch: char)
    ensures LeadTrim(s + [ch]) == if LeadTrim(s) != "" then LeadTrim(s) + [ch] else if IsLeadBlank(ch) then "" else [ch]
  {
    if s == "" {
      assert s + [ch] == [ch] && [ch][1..] == "";
    } else {
      assert (s + [ch])[1..] == s[1..] + [ch];
      if IsLeadBlank(s[0]) { LeadTrimSnoc(s[1..], ch); }
    }
  }

  /** Whether answer and reasoning have begun, and which source of reasoning was first. */
  datatype Gate = Gate(sawText: bool, sawReasoning: bool, source: InlineSplit.Source)

  const FRESH_GATE := Gate(false, false, InlineSplit.UnknownSource)

  predicate MayPass(g: Gate, thinking: bool, channel: Channel) {
    match channel
    case Answers => true
    case Tags => thinking && g.source != InlineSplit.ReasoningEvents
    case Natives => thinking && g.source != InlineSplit.TagBlocks
  }

  function ChannelOf(r: Raw): Channel
    requires !r.ToolCall?
  {
    match r
    case AnswerChar(_) => Answers
    case TaggedChar(_) => Tags
    case NativeChar(_) => Natives
  }

  predicate Begun(g: Gate, channel: Channel) {
    if channel == Answers then g.sawText else g.sawReasoning
  }

  /** The gate once a channel that may pass has been used; `shown` says whether anything visible came. */
  function Passed(g: Gate, channel: Channel, shown: bool): Gate {
    match channel
    case Answers => Gate(g.sawText || shown, g.sawReasoning, g.source)
    case Tags => Gate(g.sawText, g.sawReasoning || shown, InlineSplit.TagBlocks)
    case Natives => Gate(g.sawText, g.sawReasoning || shown, InlineSplit.ReasoningEvents)
  }

  function GateStep(g: Gate, thinking: bool, r: Raw): Gate {
    if r.ToolCall? || !MayPass(g, thinking, ChannelOf(r)) then g else Passed(g, ChannelOf(r), !IsLeadBlank(r.ch))
  }

  function KeptStep(g: Gate, thinking: bool, r: Raw): seq<Spoken> {
    if r.ToolCall? then [Called(r.item)]
    else if !MayPass(g, thinking, ChannelOf(r)) || (!Begun(g, ChannelOf(r)) && IsLeadBlank(r.ch)) then []
    else Chars([r.ch], ChannelOf(r) != Answers)
  }

  function GateAfter(raw: seq<Raw>, thinking: bool): Gate {
    if raw == [] then FRESH_GATE else GateStep(GateAfter(raw[..|raw| - 1], thinking), thinking, raw[|raw| - 1])
  }

  /** The reference: character by character, what of the input the client is told. */
  function Kept(raw: seq<Raw>, thinking: bool): seq<Spoken> {
    if raw == [] then []
    else Kept(raw[..|raw| - 1], thinking) + KeptStep(GateAfter(raw[..|raw| - 1], thinking), thinking, raw[|raw| - 1])
  }

  lemma KeptSnoc(raw: seq<Raw>, r: Raw, thinking: bool)
    ensures Kept(raw + [r], thinking) == Kept(raw, thinking) + KeptStep(GateAfter(raw, thinking), thinking, r)
    ensures GateAfter(raw + [r], thinking) == GateStep(GateAfter(raw, thinking), thinking, r)
  {
    hide KeptStep, GateStep;
    assert (raw + [r])[..|raw|] == raw;
  }

  function Shown(text: string, begun: bool): string {
    if begun then text else LeadTrim(text)
  }

  /** What passes of a text, and the gate after it. */
  function Passing(g: Gate, thinking: bool, channel: Channel, text: string): seq<Spoken> {
    if MayPass(g, thinking, channel) then Chars(Shown(text, Begun(g, channel)), channel != Answers) else []
  }

  function GateThen(g: Gate, thinking: bool, channel: Channel, text: string): Gate {
    if MayPass(g, thinking, channel) then Passed(g, channel, Shown(text, Begun(g, channel)) != "") else g
  }

  lemma OneCharPasses(g: Gate, thinking: bool, channel: Channel, ch: char)
    ensures KeptStep(g, thinking, RawChar(ch, channel)) == Passing(g, thinking, channel, [ch])
    ensures GateStep(g, thinking, RawChar(ch, channel)) == GateThen(g, thinking, channel, [ch])
  {
    LeadTrimSnoc("", ch);
    assert "" + [ch] == [ch];
  }

  lemma MoreTextPasses(g: Gate, thinking: bool, channel: Channel, init: string, ch: char)
    requires init != ""
    ensures Passing(g, thinking, channel, init + [ch])
              == Passing(g, thinking, channel, init)
                  + Passing(GateThen(g, thinking, channel, init), thinking, channel, [ch])
    ensures GateThen(g, thinking, channel, init + [ch])
              == GateThen(GateThen(g, thinking, channel, init), thinking, channel, [ch])
  {
    hide Shown;
    ShownSnoc(init, Begun(g, channel), ch);
    var shown := Shown(init, Begun(g, channel));
    var rest := Shown([ch], Begun(g, channel) || shown != "");
    CharsConcat<Item>(shown, rest, channel != Answers);
  }

  lemma ShownSnoc(init: string, begun: bool, ch: char)
    requires init != ""
    ensures Shown(init + [ch], begun) == Shown(init, begun) + Shown([ch], begun || Shown(init, begun) != "")
    ensures begun ==> Shown(init, begun) != ""
  {
    LeadTrimSnoc(init, ch);
    LeadTrimSnoc("", ch);
    assert "" + [ch] == [ch];
  }

  /** A whole text at once. */
  lemma {:induction false} KeptChars(raw: seq<Raw>, text: string, channel: Channel, thinking: bool)
    requires text != ""
    ensures var g, after := GateAfter(raw, thinking), raw + RawChars(text, channel);
            && Kept(after, thinking) == Kept(raw, thinking) + Passing(g, thinking, channel, text)
            && GateAfter(after, thinking) == GateThen(g, thinking, channel, text)
  {
    hide Kept, GateAfter, KeptStep, GateStep, Passing, GateThen;
    var init, last := text[..|text| - 1], text[|text| - 1];
    assert text == init + [last];
    var g := GateAfter(raw, thinking);
    if init == "" {
      assert RawChars(text, channel) == [RawChar(last, channel)];
      OneCharPasses(g, thinking, channel, last);
      KeptSnoc(raw, RawChar(last, channel), thinking);
    } else {
      var before := raw + RawChars(init, channel);
      KeptChars(raw, init, channel, thinking);
      MoreTextPasses(g, thinking, channel, init, last);
      OneCharPasses(GateAfter(before, thinking), thinking, channel, last);
      assert raw + RawChars(text, channel) == before + [RawChar(last, channel)];
      KeptSnoc(before, RawChar(last, channel), thinking);
      ConcatAssociative(Kept(raw, thinking), Passing(g, thinking, channel, init),
                        Passing(GateAfter(before, thinking), thinking, channel, [last]));
    }
  }

  // ---------------------------------------------------------------- what the callbacks mean

  datatype Callback = OnText(text: string, isThinking: bool) | OnToolUse(item: Item)

  /** The tag-split text since the last call, and whether it began inside a thinking block. */
  function Piece(calls: seq<Callback>): string {
    if calls == [] then ""
    else
      match calls[|calls| - 1]
      case OnText(text, isThinking) => Piece(calls[..|calls| - 1]) + (if isThinking then "" else text)
      case OnToolUse(_) => ""
  }

  function Block(calls: seq<Callback>): bool {
    if calls == [] then false
    else
      var init := calls[..|calls| - 1];
      if calls[|calls| - 1].OnToolUse? then ScanEnd(Piece(init), Block(init)) else Block(init)
  }

  /** What came in up to and including the last call, native reasoning aside. */
  function Before(calls: seq<Callback>): seq<Raw> {
    if calls == [] then []
    else
      var init := calls[..|calls| - 1];
      match calls[|calls| - 1]
      case OnText(_, _) => Before(init)
      case OnToolUse(item) => Before(init) + RawMarks(Scan(Piece(init), Block(init))) + [ToolCall(item)]
  }

  /** The reference reading of a whole attempt: every text between two calls is scanned as one. */
  function Expected(calls: seq<Callback>): seq<Raw> {
    Before(calls) + RawMarks(Scan(Piece(calls), Block(calls)))
  }

  function NativeText(calls: seq<Callback>): string {
    if calls == [] then ""
    else
      NativeText(calls[..|calls| - 1]) +
      match calls[|calls| - 1]
      case OnText(text, isThinking) => (if isThinking then text else "")
      case OnToolUse(_) => ""
  }

  function WithoutNative(raw: seq<Raw>): seq<Raw> {
    if raw == [] then []
    else
      WithoutNative(raw[..|raw| - 1]) +
      (if raw[|raw| - 1].NativeChar? then [] else [raw[|raw| - 1]])
  }

  function NativeOnly(raw: seq<Raw>): string {
    if raw == [] then ""
    else
      NativeOnly(raw[..|raw| - 1]) +
      (if raw[|raw| - 1].NativeChar? then [raw[|raw| - 1].ch] else "")
  }

  lemma PartsConcat(a: seq<Raw>, b: seq<Raw>)
    ensures WithoutNative(a + b) == WithoutNative(a) + WithoutNative(b)
    ensures NativeOnly(a + b) == NativeOnly(a) + NativeOnly(b)
  {
    WithoutNativeConcat(a, b);
    NativeOnlyConcat(a, b);
  }

  lemma {:induction false} WithoutNativeConcat(a: seq<Raw>, b: seq<Raw>)
    ensures WithoutNative(a + b) == WithoutNative(a) + WithoutNative(b)
  {
    if b == [] {
      assert a + b == a;
    } else {
      var init := b[..|b| - 1];
      WithoutNativeConcat(a, init);
      assert (a + b)[..|a + b| - 1] == a + init;
    }
  }

  lemma {:induction false} NativeOnlyConcat(a: seq<Raw>, b: seq<Raw>)
    ensures NativeOnly(a + b) == NativeOnly(a) + NativeOnly(b)
  {
    if b == [] {
      assert a + b == a;
    } else {
      var init := b[..|b| - 1];
      NativeOnlyConcat(a, init);
      assert (a + b)[..|a + b| - 1] == a + init;
    }
  }

  lemma {:induction false} PartsOfPlain(raw: seq<Raw>)
    requires forall i :: 0 <= i < |raw| ==> !raw[i].NativeChar?
    ensures WithoutNative(raw) == raw && NativeOnly(raw) == ""
  {
    if raw != [] { PartsOfPlain(raw[..|raw| - 1]); }
  }

  lemma {:induction false} PartsOfNative(text: string)
    ensures WithoutNative(RawChars(text, Natives)) == [] && NativeOnly(RawChars(text, Natives)) == text
  {
    if text != "" {
      PartsOfNative(text[..|text| - 1]);
      assert RawChars(text, Natives)[..|text| - 1] == RawChars(text[..|text| - 1], Natives);
    }
  }

  // ---------------------------------------------------------------- what Kept means

  function RawText(raw: seq<Raw>, channel: Channel): string {
    if raw == [] then ""
    else
      var last := raw[|raw| - 1];
      RawText(raw[..|raw| - 1], channel) + (if last.ToolCall? then "" else If(ChannelOf(last) == channel, last.ch))
  }

  lemma SaidTextOfStep(said: seq<Spoken>, g: Gate, thinking: bool, r: Raw, thought: bool)
    ensures SaidText(said + KeptStep(g, thinking, r), thought) ==
            SaidText(said, thought) +
              (if r.ToolCall? then ""
               else If(KeptStep(g, thinking, r) != [] && (ChannelOf(r) != Answers) == thought, r.ch))
  {
    var step := KeptStep(g, thinking, r);
    if step == [] {
      assert said + step == said;
    } else {
      assert |step| == 1 && (said + step)[..|said|] == said;
    }
  }

  /**
   The answer is the answer characters with leading blanks dropped.  The reasoning is that of the
   source that came first, trimmed likewise, and none at all when thinking was not asked for.
   */
  predicate TextsAgree(answer: string, thought: string, g: Gate, thinking: bool, answers: string, tags: string,
                       natives: string) {
    && answer == LeadTrim(answers)
    && (match g.source
        case UnknownSource => thought == "" && (thinking ==> tags == "" && natives == "")
        case TagBlocks => thinking && thought == LeadTrim(tags)
        case ReasoningEvents => thinking && thought == LeadTrim(natives))
    && g.sawText == (answer != "") && g.sawReasoning == (thought != "")
  }

  function If(c: bool, ch: char): string {
    if c then [ch] else ""
  }

  lemma TextsStep(answer: string, thought: string, g: Gate, thinking: bool, answers: string, tags: string,
                  natives: string, ch: char, channel: Channel)
    requires TextsAgree(answer, thought, g, thinking, answers, tags, natives)
    ensures var r := RawChar(ch, channel);
            var shown := KeptStep(g, thinking, r) != [];
            TextsAgree(answer + If(shown && channel == Answers, ch), thought + If(shown && channel != Answers, ch),
                       GateStep(g, thinking, r), thinking,
                       answers + If(channel == Answers, ch), tags + If(channel == Tags, ch),
                       natives + If(channel == Natives, ch))
  {
    hide TextsAgree, LeadTrim;
    assert answer + "" == answer && thought + "" == thought;
    assert answers + "" == answers && tags + "" == tags && natives + "" == natives;
    assert |Chars<Item>([ch], channel != Answers)| == 1;
    match channel
    case Answers => AnswerStep(answer, thought, g, thinking, answers, tags, natives, ch);
    case Tags => TagStep(answer, thought, g, thinking, answers, tags, natives, ch);
    case Natives => NativeStep(answer, thought, g, thinking, answers, tags, natives, ch);
  }

  lemma AnswerStep(answer: string, thought: string, g: Gate, thinking: bool, answers: string, tags: string,
                   natives: string, ch: char)
    requires TextsAgree(answer, thought, g, thinking, answers, tags, natives)
    ensures TextsAgree(answer + If(g.sawText || !IsLeadBlank(ch), ch), thought,
                       Gate(g.sawText || !IsLeadBlank(ch), g.sawReasoning, g.source), thinking, answers + [ch], tags,
                       natives)
  {
    hide LeadTrim;
    LeadTrimSnoc(answers, ch);
    assert answer + "" == answer;
  }

  lemma TagStep(answer: string, thought: string, g: Gate, thinking: bool, answers: string, tags: string,
                natives: string, ch: char)
    requires TextsAgree(answer, thought, g, thinking, answers, tags, natives)
    ensures var may := thinking && g.source != InlineSplit.ReasoningEvents;
            var seen := g.sawReasoning || !IsLeadBlank(ch);
            TextsAgree(answer, thought + If(may && seen, ch),
                       if may then Gate(g.sawText, seen, InlineSplit.TagBlocks) else g, thinking, answers, tags + [ch],
                       natives)
  {
    assert LeadTrim("") == "";
    hide LeadTrim;
    LeadTrimSnoc(tags, ch);
    assert thought + "" == thought;
  }

  lemma NativeStep(answer: string, thought: string, g: Gate, thinking: bool, answers: string, tags: string,
                   natives: string, ch: char)
    requires TextsAgree(answer, thought, g, thinking, answers, tags, natives)
    ensures var may := thinking && g.source != InlineSplit.TagBlocks;
            var seen := g.sawReasoning || !IsLeadBlank(ch);
            TextsAgree(answer, thought + If(may && seen, ch),
                       if may then Gate(g.sawText, seen, InlineSplit.ReasoningEvents) else g, thinking, answers, tags,
                       natives + [ch])
  {
    assert LeadTrim("") == "";
    hide LeadTrim;
    LeadTrimSnoc(natives, ch);
    assert thought + "" == thought;
  }

  lemma {:induction false} KeptTexts(raw: seq<Raw>, thinking: bool)
    ensures TextsAgree(SaidText(Kept(raw, thinking), false), SaidText(Kept(raw, thinking), true),
                       GateAfter(raw, thinking), thinking,
                       RawText(raw, Answers), RawText(raw, Tags), RawText(raw, Natives))
  {
    if raw != [] {
      hide TextsAgree, KeptStep, GateStep, SaidText, If;
      var init, last := raw[..|raw| - 1], raw[|raw| - 1];
      KeptTexts(init, thinking);
      var g, said := GateAfter(init, thinking), Kept(init, thinking);
      SaidTextOfStep(said, g, thinking, last, false);
      SaidTextOfStep(said, g, thinking, last, true);
      var answer, thought := SaidText(said, false), SaidText(said, true);
      if last.ToolCall? {
        hide RawText;
        CallStep(raw, g, thinking, last);
        assert answer + "" == answer && thought + "" == thought;
      } else {
        TextsStep(answer, thought, g, thinking, RawText(init, Answers), RawText(init, Tags), RawText(init, Natives),
                  last.ch, ChannelOf(last));
      }
    }
  }

  lemma CallStep(raw: seq<Raw>, g: Gate, thinking: bool, r: Raw)
    requires r.ToolCall? && raw != [] && raw[|raw| - 1] == r
    ensures GateStep(g, thinking, r) == g
    ensures forall channel :: RawText(raw, channel) == RawText(raw[..|raw| - 1], channel)
  {
  }

  lemma {:induction false} RawTextWithoutNative(raw: seq<Raw>)
    ensures RawText(WithoutNative(raw), Answers) == RawText(raw, Answers)
    ensures RawText(WithoutNative(raw), Tags) == RawText(raw, Tags)
    ensures RawText(raw, Natives) == NativeOnly(raw)
  {
    if raw != [] {
      var init, last := raw[..|raw| - 1], raw[|raw| - 1];
      RawTextWithoutNative(init);
      if last.NativeChar? {
        assert WithoutNative(raw) == WithoutNative(init);
      } else {
        assert WithoutNative(raw)[..|WithoutNative(raw)| - 1] == WithoutNative(init);
      }
    }
  }

  lemma {:induction false} RawTextOfMarks(marks: seq<Mark>)
    ensures RawText(RawMarks(marks), Answers) == ThinkingSplit.Only(marks, false)
    ensures RawText(RawMarks(marks), Tags) == ThinkingSplit.Only(marks, true)
  {
    if marks != [] {
      var init, last := marks[..|marks| - 1], marks[|marks| - 1];
      RawTextOfMarks(init);
      assert marks == init + [last];
      RawMarksConcat(init, [last]);
      RawTextSnoc(RawMarks(init), RawMarks([last])[0]);
      hide RawText, RawMarks, ThinkingSplit.Only;
      OnlySnoc(init, last, false);
      OnlySnoc(init, last, true);
    }
  }

  lemma RawTextSnoc(raw: seq<Raw>, r: Raw)
    requires !r.ToolCall?
    ensures forall channel :: RawText(raw + [r], channel) == RawText(raw, channel) + If(ChannelOf(r) == channel, r.ch)
  {
    assert (raw + [r])[..|raw|] == raw;
  }

  lemma OnlySnoc(marks: seq<Mark>, last: Mark, thinking: bool)
    ensures ThinkingSplit.Only(marks + [last], thinking)
              == ThinkingSplit.Only(marks, thinking) + If(last.thinking == thinking, last.ch)
  {
    CollectConcat(marks, [last], KindPart(thinking));
    CollectOne(last, KindPart(thinking));
  }

  lemma {:induction false} NoCallsNothingBefore(calls: seq<Callback>)
    requires forall i :: 0 <= i < |calls| ==> calls[i].OnText?
    ensures Before(calls) == [] && !Block(calls)
  {
    if calls != [] { NoCallsNothingBefore(calls[..|calls| - 1]); }
  }

  // ---------------------------------------------------------------- in the order it arrives

  /** What the splitter still holds after some callbacks, and whether it is inside a block. */
  function Held(calls: seq<Callback>): string {
    Pending(Piece(calls), Block(calls))
  }

  function HeldBlock(calls: seq<Callback>): bool {
    PendingBlock(Piece(calls), Block(calls))
  }

  /**
   What one callback brings: a native event its text, another text what it settles, a call what was still
   held and itself.
   */
  function Coming(held: string, inBlock: bool, call: Callback): seq<Raw> {
    if call.OnToolUse? then RawMarks(Marks(held, inBlock)) + [ToolCall(call.item)]
    else if call.isThinking then RawChars(call.text, Natives)
    else RawMarks(Settled(held + call.text, inBlock))
  }

  /** What has come in after some callbacks, in order. */
  function Arrived(calls: seq<Callback>): seq<Raw> {
    if calls == [] then []
    else
      Arrived(calls[..|calls| - 1])
      + Coming(Held(calls[..|calls| - 1]), HeldBlock(calls[..|calls| - 1]), calls[|calls| - 1])
  }

  /** And once the splitter is flushed. */
  function Flushed(calls: seq<Callback>): seq<Raw> {
    Arrived(calls) + RawMarks(Marks(Held(calls), HeldBlock(calls)))
  }

  lemma CallbackStep(calls: seq<Callback>, call: Callback)
    ensures var after := calls + [call];
            match call
            case OnText(text, isThinking) =>
              && Piece(after) == Piece(calls) + (if isThinking then "" else text)
              && Block(after) == Block(calls) && Before(after) == Before(calls)
              && NativeText(after) == NativeText(calls) + (if isThinking then text else "")
              && Arrived(after) == Arrived(calls) + Coming(Held(calls), HeldBlock(calls), call)
            case OnToolUse(item) =>
              && Piece(after) == "" && Block(after) == ScanEnd(Piece(calls), Block(calls))
              && NativeText(after) == NativeText(calls)
              && Before(after) == Expected(calls) + [ToolCall(item)]
              && Arrived(after) == Flushed(calls) + [ToolCall(item)]
  {
    hide Scan, ScanEnd, RawMarks, Held, HeldBlock, Marks, Settled, RawChars;
    var called := if call.OnToolUse? then [ToolCall(call.item)] else [];
    ConcatAssociative(Arrived(calls), RawMarks(Marks(Held(calls), HeldBlock(calls))), called);
    assert (calls + [call])[..|calls|] == calls;
  }

  lemma HeldAfterText(calls: seq<Callback>, text: string)
    ensures var after := calls + [OnText(text, false)];
            && Held(after) == Pending(Held(calls) + text, HeldBlock(calls))
            && HeldBlock(after) == PendingBlock(Held(calls) + text, HeldBlock(calls))
            && Settled(Piece(after), Block(after))
                == Settled(Piece(calls), Block(calls)) + Settled(Held(calls) + text, HeldBlock(calls))
  {
    hide Settled, Pending, PendingBlock, Piece, Block, Arrived, Before, NativeText;
    CallbackStep(calls, OnText(text, false));
    SettledExtends(Piece(calls), Block(calls), text);
  }

  lemma HeldAfterNative(calls: seq<Callback>, text: string)
    ensures var after := calls + [OnText(text, true)];
            && Held(after) == Held(calls) && HeldBlock(after) == HeldBlock(calls)
            && Piece(after) == Piece(calls) && Block(after) == Block(calls)
  {
    hide Settled, Pending, PendingBlock, Piece, Block, Arrived, Before, NativeText;
    CallbackStep(calls, OnText(text, true));
    assert Piece(calls) + "" == Piece(calls);
  }

  lemma HeldAfterCall(calls: seq<Callback>, item: Item)
    ensures var after := calls + [OnToolUse(item)];
            Held(after) == "" && HeldBlock(after) == ScanEnd(Piece(calls), Block(calls)) == HeldBlock(calls)
    ensures RawMarks(Settled(Piece(calls + [OnToolUse(item)]), Block(calls + [OnToolUse(item)]))) == []
  {
    hide Settled, Pending, PendingBlock, Piece, Block, Arrived, Before, NativeText, Scan, ScanEnd;
    CallbackStep(calls, OnToolUse(item));
    NothingSettled("", ScanEnd(Piece(calls), Block(calls)));
    ScanIsSettledThenPending(Piece(calls), Block(calls));
  }

  /**
   Native reasoning aside, what has come in is the reference reading as far as it is settled; and no native
   text is lost or moved.
   */
  ghost predicate PartsRead(calls: seq<Callback>) {
    && WithoutNative(Arrived(calls)) == Before(calls) + RawMarks(Settled(Piece(calls), Block(calls)))
    && NativeOnly(Arrived(calls)) == NativeText(calls)
  }

  lemma NativeKeepsParts(calls: seq<Callback>, text: string)
    requires PartsRead(calls)
    ensures PartsRead(calls + [OnText(text, true)])
  {
    hide Arrived, Before, NativeText, Piece, Block, Settled, WithoutNative, NativeOnly, Held, HeldBlock;
    CallbackStep(calls, OnText(text, true));
    HeldAfterNative(calls, text);
    PartsConcat(Arrived(calls), RawChars(text, Natives));
    PartsOfNative(text);
  }

  lemma TextKeepsParts(calls: seq<Callback>, text: string)
    requires PartsRead(calls)
    ensures PartsRead(calls + [OnText(text, false)])
  {
    hide Arrived, Before, NativeText, Piece, Block, Settled, WithoutNative, NativeOnly, Held, HeldBlock;
    var out := Settled(Held(calls) + text, HeldBlock(calls));
    CallbackStep(calls, OnText(text, false));
    HeldAfterText(calls, text);
    PartsConcat(Arrived(calls), RawMarks(out));
    PartsOfPlain(RawMarks(out));
    RawMarksConcat(Settled(Piece(calls), Block(calls)), out);
    ConcatAssociative(Before(calls), RawMarks(Settled(Piece(calls), Block(calls))), RawMarks(out));
  }

  lemma CallKeepsParts(calls: seq<Callback>, item: Item)
    requires PartsRead(calls)
    ensures PartsRead(calls + [OnToolUse(item)])
  {
    hide Arrived, Flushed, Expected, Before, NativeText, Piece, Block, Settled, WithoutNative, NativeOnly, Scan,
      ScanEnd, Held, HeldBlock;
    CallbackStep(calls, OnToolUse(item));
    FlushedWith(calls);
    HeldAfterCall(calls, item);
    PartsConcat(Flushed(calls), [ToolCall(item)]);
    PartsOfPlain([ToolCall(item)]);
  }

  lemma {:induction false} ArrivedParts(calls: seq<Callback>)
    ensures PartsRead(calls)
    decreases |calls|
  {
    if calls == [] {
      SettledNothing();
    } else {
      hide PartsRead;
      var init, last := calls[..|calls| - 1], calls[|calls| - 1];
      assert calls == init + [last];
      ArrivedParts(init);
      match last
      case OnText(text, isThinking) =>
        if isThinking { NativeKeepsParts(init, text); } else { TextKeepsParts(init, text); }
      case OnToolUse(item) => CallKeepsParts(init, item);
    }
  }

  lemma FlushedWith(calls: seq<Callback>)
    requires PartsRead(calls)
    ensures WithoutNative(Flushed(calls)) == Expected(calls) && NativeOnly(Flushed(calls)) == NativeText(calls)
  {
    hide Arrived, Before, NativeText, Piece, Block, Settled, Pending, PendingBlock, WithoutNative, NativeOnly, Scan,
           ScanEnd, Marks;
    var held := RawMarks(Marks(Held(calls), HeldBlock(calls)));
    ScanIsSettledThenPending(Piece(calls), Block(calls));
    PartsConcat(Arrived(calls), held);
    PartsOfPlain(held);
    RawMarksConcat(Settled(Piece(calls), Block(calls)), Marks(Held(calls), HeldBlock(calls)));
    ConcatAssociative(Before(calls), RawMarks(Settled(Piece(calls), Block(calls))), held);
  }

  /** A flushed stream is the reference reading of its callbacks with the native text in between. */
  lemma FlushedParts(calls: seq<Callback>)
    ensures WithoutNative(Flushed(calls)) == Expected(calls) && NativeOnly(Flushed(calls)) == NativeText(calls)
  {
    ArrivedParts(calls);
    FlushedWith(calls);
  }

  lemma {:induction false} ArrivedGrows(calls: seq<Callback>, n: nat)
    requires n <= |calls|
    ensures Arrived(calls[..n]) <= Arrived(calls)
    decreases |calls|
  {
    hide Arrived;
    if n == |calls| {
      assert calls[..n] == calls;
    } else {
      var init, last := calls[..|calls| - 1], calls[|calls| - 1];
      assert init[..n] == calls[..n] && calls == init + [last];
      ArrivedGrows(init, n);
      CallbackStep(init, last);
      assert Arrived(init) <= Arrived(calls);
    }
  }

  /**
   Every call stands where it came: before it is just what the callbacks before it say, their native
   reasoning included.
   */
  lemma CallsStandInPlace(calls: seq<Callback>, i: nat)
    requires i < |calls| && calls[i].OnToolUse?
    ensures Flushed(calls[..i]) + [ToolCall(calls[i].item)] <= Arrived(calls)
    ensures WithoutNative(Flushed(calls[..i])) == Expected(calls[..i])
              && NativeOnly(Flushed(calls[..i])) == NativeText(calls[..i])
  {
    hide *;
    var before := calls[..i];
    CallArrives(before, calls[i]);
    assert calls[..i + 1] == before + [calls[i]];
    ArrivedGrows(calls, i + 1);
    FlushedParts(before);
  }

  lemma CallArrives(calls: seq<Callback>, call: Callback)
    requires call.OnToolUse?
    ensures Arrived(calls + [call]) == Flushed(calls) + [ToolCall(call.item)]
  {
    hide *;
    CallbackStep(calls, call);
  }

  // ---------------------------------------------------------------- the two splitters compared

  function EventOf(c: Callback): InlineSplit.Event {
    match c
    case OnText(text, isThinking) => if isThinking then InlineSplit.ReasoningChunk(text)
        else InlineSplit.AnswerChunk(text)
    case OnToolUse(_) => InlineSplit.ToolCall
  }

  function Events(calls: seq<Callback>): seq<InlineSplit.Event> {
    seq(|calls|, i requires 0 <= i < |calls| => EventOf(calls[i]))
  }

  /** The answer of the splitter of this stream, and that of the inline buffers, for the same callbacks. */
  function SplitterAnswer(calls: seq<Callback>): string {
    RawText(Expected(calls), Answers)
  }

  function BufferAnswer(calls: seq<Callback>): string {
    InlineSplit.Expected(Events(calls), "", false)
  }

  /** Both give the same answer when some text follows. */
  predicate AgreeOn(calls: seq<Callback>, text: string) {
    SplitterAnswer(calls + [OnText(text, false)]) == BufferAnswer(calls + [OnText(text, false)])
  }

  /** No call comes while the text before it has a block open. */
  predicate CallsOutsideBlocks(calls: seq<Callback>) {
    forall i :: 0 <= i < |calls| && calls[i].OnToolUse? ==> !ScanEnd(Piece(calls[..i]), Block(calls[..i]))
  }

  lemma EventsSnoc(calls: seq<Callback>, call: Callback)
    ensures Events(calls + [call]) == Events(calls) + [EventOf(call)]
  {
  }

  /** The buffers' answer before the last call: each stretch begins outside a block. */
  function BufferBefore(calls: seq<Callback>): string {
    if calls == [] then ""
    else
      var init := calls[..|calls| - 1];
      if calls[|calls| - 1].OnToolUse? then BufferBefore(init) + AnswerOf(Piece(init)) else BufferBefore(init)
  }

  lemma {:induction false} BufferReads(calls: seq<Callback>, rest: seq<InlineSplit.Event>)
    ensures InlineSplit.Expected(Events(calls) + rest, "", false)
              == BufferBefore(calls) + InlineSplit.Expected(rest, Piece(calls), false)
    decreases |calls|
  {
    if calls == [] {
      assert Events(calls) + rest == rest;
    } else {
      var init, last := calls[..|calls| - 1], calls[|calls| - 1];
      assert calls == init + [last];
      EventsSnoc(init, last);
      assert Events(calls) + rest == Events(init) + ([EventOf(last)] + rest);
      BufferReads(init, [EventOf(last)] + rest);
      BufferStep(last, rest, Piece(init));
      hide InlineSplit.Expected, AnswerOf, Events;
      if last.OnToolUse? {
        ConcatAssociative(BufferBefore(init), AnswerOf(Piece(init)), InlineSplit.Expected(rest, "", false));
      } else if last.isThinking {
        assert Piece(init) + "" == Piece(init);
      }
    }
  }

  lemma BufferStep(call: Callback, rest: seq<InlineSplit.Event>, sofar: string)
    ensures var read := InlineSplit.Expected([EventOf(call)] + rest, sofar, false);
            if call.OnToolUse? then read == AnswerOf(sofar) + InlineSplit.Expected(rest, "", false)
            else if call.isThinking then read == InlineSplit.Expected(rest, sofar, false)
            else read == InlineSplit.Expected(rest, sofar + call.text, false)
  {
    assert ([EventOf(call)] + rest)[1..] == rest;
  }

  lemma BufferAnswerIs(calls: seq<Callback>)
    ensures BufferAnswer(calls) == BufferBefore(calls) + AnswerOf(Piece(calls))
  {
    BufferReads(calls, []);
    assert Events(calls) + [] == Events(calls);
  }

  lemma SplitterAnswerIs(calls: seq<Callback>)
    ensures SplitterAnswer(calls) == RawText(Before(calls), Answers)
              + ThinkingSplit.Only(Scan(Piece(calls), Block(calls)), false)
  {
    hide RawText, Before, Piece, Block, Scan;
    RawTextConcat(Before(calls), RawMarks(Scan(Piece(calls), Block(calls))), Answers);
    RawTextOfMarks(Scan(Piece(calls), Block(calls)));
  }

  lemma {:induction false} RawTextConcat(a: seq<Raw>, b: seq<Raw>, channel: Channel)
    ensures RawText(a + b, channel) == RawText(a, channel) + RawText(b, channel)
  {
    if b == [] {
      assert a + b == a;
    } else {
      var init := b[..|b| - 1];
      RawTextConcat(a, init, channel);
      assert (a + b)[..|a + b| - 1] == a + init;
    }
  }

  /** While every call comes outside a block, both read each stretch alike. */
  lemma {:induction false} OutsideBlocksAlike(calls: seq<Callback>)
    requires CallsOutsideBlocks(calls)
    ensures !Block(calls) && RawText(Before(calls), Answers) == BufferBefore(calls)
    decreases |calls|
  {
    if calls != [] {
      var init, last := calls[..|calls| - 1], calls[|calls| - 1];
      assert calls == init + [last];
      forall i | 0 <= i < |init| && init[i].OnToolUse? ensures !ScanEnd(Piece(init[..i]), Block(init[..i])) {
        assert init[..i] == calls[..i] && init[i] == calls[i];
      }
      OutsideBlocksAlike(init);
      if last.OnToolUse? {
        assert calls[..|init|] == init;
        hide Scan, ScanEnd, RawText, Before, Piece, Block;
        CallbackStep(init, last);
        RawTextConcat(Expected(init), [ToolCall(last.item)], Answers);
        RawTextOfCall(last.item);
        SplitterAnswerIs(init);
      }
    }
  }

  lemma RawTextOfCall(item: Item)
    ensures RawText([ToolCall(item)], Answers) == ""
  {
    assert [ToolCall(item)][..0] == [];
  }

  /**
   The two agree on a stream, on each part of it and on whatever text may follow any of these, exactly
   if no call comes inside an open block: the splitter goes on in the block, the buffers leave it.
   */
  lemma SplittersAgree(calls: seq<Callback>)
    ensures CallsOutsideBlocks(calls) <==> forall n, text :: 0 <= n <= |calls| ==> AgreeOn(calls[..n], text)
  {
    if CallsOutsideBlocks(calls) {
      forall n, text | 0 <= n <= |calls|
        ensures AgreeOn(calls[..n], text)
      {
        PartOutsideBlocks(calls, n, text);
        AgreeOutsideBlocks(calls[..n] + [OnText(text, false)]);
      }
    } else {
      var n, text := DisagreeAfterBlock(calls);
    }
  }

  /** A call right after an opening tag: a letter behind it is answer to the buffers and reasoning to the splitter. */
  lemma SplittersDisagree(item: Item)
    ensures !AgreeOn([OnText("<thinking>", false), OnToolUse(item)], "x")
  {
    var calls := [OnText("<thinking>", false), OnToolUse(item)];
    CallAfterTag(item);
    hide CallsOutsideBlocks, AgreeOn;
    var n, text := DisagreeAfterBlock(calls);
    assert n == 2 && calls[..2] == calls;
  }

  lemma CallAfterTag(item: Item)
    ensures !CallsOutsideBlocks([OnText("<thinking>", false), OnToolUse(item)])
  {
    var calls := [OnText("<thinking>", false), OnToolUse(item)];
    assert calls[..1] == [calls[0]] && calls[..1][..0] == [];
    assert "" + "<thinking>" == "<thinking>";
    assert Piece(calls[..1]) == "<thinking>" && !Block(calls[..1]);
    assert OPEN_TAG[|OPEN_TAG|..] == "" && ScanEnd("", true);
    assert ScanEnd(Piece(calls[..1]), Block(calls[..1]));
  }

  lemma PartOutsideBlocks(calls: seq<Callback>, n: nat, text: string)
    requires CallsOutsideBlocks(calls) && n <= |calls|
    ensures CallsOutsideBlocks(calls[..n] + [OnText(text, false)])
  {
    hide ScanEnd, Piece, Block;
    var part := calls[..n] + [OnText(text, false)];
    forall i | 0 <= i < |part| && part[i].OnToolUse? ensures !ScanEnd(Piece(part[..i]), Block(part[..i])) {
      assert part[..i] == calls[..i] && part[i] == calls[i];
    }
  }

  lemma AgreeOutsideBlocks(calls: seq<Callback>)
    requires CallsOutsideBlocks(calls)
    ensures SplitterAnswer(calls) == BufferAnswer(calls)
  {
    hide Scan, ScanEnd, Piece, Block, Before, RawText, BufferBefore, SplitterAnswer, BufferAnswer, CallsOutsideBlocks;
    OutsideBlocksAlike(calls);
    SplitterAnswerIs(calls);
    BufferAnswerIs(calls);
  }

  /** After the first call inside a block, a letter is reasoning to the one and answer to the other. */
  lemma DisagreeAfterBlock(calls: seq<Callback>) returns (n: nat, text: string)
    requires !CallsOutsideBlocks(calls)
    ensures 0 < n <= |calls| && calls[n - 1].OnToolUse? && text == "x"
    ensures !AgreeOn(calls[..n], text)
  {
    var i := FirstInside(calls);
    n, text := i + 1, "x";
    assert calls[..n] == calls[..i] + [calls[i]];
    hide *;
    DisagreeInside(calls[..i], calls[i]);
  }

  lemma DisagreeInside(calls: seq<Callback>, call: Callback)
    requires call.OnToolUse? && CallsOutsideBlocks(calls) && ScanEnd(Piece(calls), Block(calls))
    ensures !AgreeOn(calls + [call], "x")
  {
    hide SplitterAnswer, BufferAnswer, CallsOutsideBlocks, ScanEnd;
    AgreeOutsideBlocks(calls);
    SplitterDropsLetter(calls, call);
    BufferShowsLetter(calls, call);
  }

  lemma SplitterDropsLetter(calls: seq<Callback>, call: Callback)
    requires call.OnToolUse? && ScanEnd(Piece(calls), Block(calls))
    ensures SplitterAnswer(calls + [call] + [OnText("x", false)]) == SplitterAnswer(calls)
  {
    hide Scan, ScanEnd, Piece, Block, Before, Expected, RawText, SplitterAnswer, NativeText, Arrived;
    var upto := calls + [call];
    CallbackStep(calls, call);
    CallbackStep(upto, OnText("x", false));
    RawTextConcat(Expected(calls), [ToolCall(call.item)], Answers);
    RawTextOfCall(call.item);
    SplitterMeans(calls);
    SplitterAnswerIs(upto + [OnText("x", false)]);
    assert "" + "x" == "x";
    LetterIsOneOrTheOther();
  }

  lemma BufferShowsLetter(calls: seq<Callback>, call: Callback)
    requires call.OnToolUse?
    ensures BufferAnswer(calls + [call] + [OnText("x", false)]) == BufferAnswer(calls) + "x"
  {
    hide Scan, ScanEnd, Piece, Block, Before, BufferBefore, BufferAnswer, AnswerOf, NativeText, Arrived;
    var upto := calls + [call];
    CallbackStep(calls, call);
    CallbackStep(upto, OnText("x", false));
    BufferAfterCall(calls, call);
    BufferAfterText(upto, "x");
    BufferAnswerIs(calls);
    BufferAnswerIs(upto + [OnText("x", false)]);
    assert "" + "x" == "x";
    LetterIsOneOrTheOther();
  }

  lemma SplitterMeans(calls: seq<Callback>)
    ensures SplitterAnswer(calls) == RawText(Expected(calls), Answers)
  {
  }

  lemma LetterIsOneOrTheOther()
    ensures ThinkingSplit.Only(Scan("x", true), false) == "" && AnswerOf("x") == "x"
  {
    InlineSplit.TagLengths();
    ScanTooShort("x", true);
    ScanTooShort("x", false);
    hide Scan, TagFor;
    OnlyMarks("x", true, false);
    OnlyMarks("x", false, false);
  }

  lemma BufferAfterCall(calls: seq<Callback>, call: Callback)
    requires call.OnToolUse?
    ensures BufferBefore(calls + [call]) == BufferBefore(calls) + AnswerOf(Piece(calls))
  {
    assert (calls + [call])[..|calls|] == calls;
  }

  lemma BufferAfterText(calls: seq<Callback>, text: string)
    ensures BufferBefore(calls + [OnText(text, false)]) == BufferBefore(calls)
  {
    assert (calls + [OnText(text, false)])[..|calls|] == calls;
  }

  lemma {:induction false} FirstInside(calls: seq<Callback>) returns (i: nat)
    requires !CallsOutsideBlocks(calls)
    ensures i < |calls| && calls[i].OnToolUse? && ScanEnd(Piece(calls[..i]), Block(calls[..i]))
    ensures CallsOutsideBlocks(calls[..i])
    decreases |calls|
  {
    hide ScanEnd, Piece, Block;
    var init := calls[..|calls| - 1];
    assert forall k :: 0 <= k < |init| ==> init[..k] == calls[..k] && init[k] == calls[k];
    if CallsOutsideBlocks(init) {
      i := |calls| - 1;
      var k :| 0 <= k < |calls| && calls[k].OnToolUse? && ScanEnd(Piece(calls[..k]), Block(calls[..k]));
    } else {
      i := FirstInside(init);
      assert init[..i] == calls[..i];
    }
  }
}
