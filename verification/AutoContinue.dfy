/**
 The auto-continue loop (proxy/auto_continue.go): how many upstream calls it makes, what each
 asks for, and what the client is told once at the end.
 */
module AutoContinue {
  import opened Text
  import opened ThinkingSplit
  import opened Overlap
  import opened Continuation

  datatype Turn = UserTurn(text: string) | AssistantTurn(text: string)

  /** The inference configuration of a request; 0 or less means no limit. */
  datatype Inference = NoInference | Inference(maxTokens: int)

  datatype Payload = Payload(history: seq<Turn>, current: string, inference: Inference)

  datatype CallError = NoError | CanceledError | UpstreamError

  /** The callbacks of one upstream call that carry no text. */
  datatype Note =
    | StopNote(reason: string)
    | CreditsNote(credits: real)
    | CacheNote(read: int, write: int)
    | CompleteNote(inputTokens: int, outputTokens: int)
    | FollowupNote(payload: Payload)

  /** Everything one upstream call does; the flags tell whether the client was gone at the two points the loop looks. */
  datatype Reply = Reply(deliveries: seq<Delivery>, notes: seq<Note>, err: CallError, goneAfter: bool,
                         goneBeforeNext: bool)

  /** The bookkeeping fields of a hop. */
  datatype Usage = Usage(stopReason: string, credits: real, cacheRead: int, cacheWrite: int,
                         inputTokens: int, outputTokens: int, followup: Option<Payload>)

  const NO_USAGE := Usage("", 0.0, 0, 0, 0, 0, None)

  /** What the callbacks leave in the hop: the last of everything, except that credits add up. */
  function UsageOf(notes: seq<Note>): Usage {
    if notes == [] then NO_USAGE
    else
      var u := UsageOf(notes[..|notes| - 1]);
      match notes[|notes| - 1]
      case StopNote(reason) => u.(stopReason := reason)
      case CreditsNote(credits) => u.(credits := u.credits + credits)
      case CacheNote(read, write) => u.(cacheRead := read, cacheWrite := write)
      case CompleteNote(i, o) => u.(inputTokens := i, outputTokens := o)
      case FollowupNote(payload) => u.(followup := Some(payload))
  }

  // ---------------------------------------------------------------- when and how to continue

  /** Every spelling mapClaudeStopReason reads as max_tokens. */
  predicate IsOutputCapStopReason(reason: string) {
    ToLower(TrimSpace(reason)) in ["max_tokens", "max_output_tokens", "length"]
  }

  const KIRO_OUTPUT_CAP_INFER_TOKENS := 8192 * 95 / 100

  predicate CutAtOutputCap(toolCount: nat, openThinking: bool, usage: Usage, answer: string) {
    && toolCount == 0
    && !openThinking
    && (IsOutputCapStopReason(usage.stopReason)
        || (TrimSpace(usage.stopReason) == "" && usage.outputTokens >= KIRO_OUTPUT_CAP_INFER_TOKENS))
    && TrimSpace(answer) != ""
  }

  /** The output tokens left of the client's own limit; a budget of 0 means no limit. */
  function RemainingOutputBudget(payload: Payload, usedOutputTokens: int, answer: string,
                                 estimate: string -> int): (r: (int, bool))
    ensures payload.inference.Inference? && payload.inference.maxTokens > 0 && r.1 ==> r.0 > 0
  {
    if payload.inference.NoInference? || payload.inference.maxTokens <= 0 then (0, true)
    else
      var used := if usedOutputTokens <= 0 then estimate(answer) else usedOutputTokens;
      (payload.inference.maxTokens - used, payload.inference.maxTokens - used > 0)
  }

  /** The fixed request for the rest. It stands for the program's own wording, of which only the identity matters. */
  const AUTO_CONTINUE_PROMPT := "Continue exactly where it stopped."

  function BuildContinuationPayload(base: Payload, answer: string, budget: int): Payload {
    Payload(
      base.history + [UserTurn(base.current), AssistantTurn(answer)],
      AUTO_CONTINUE_PROMPT,
      if budget > 0 && base.inference.Inference? then Inference(budget) else base.inference)
  }

  // ---------------------------------------------------------------- records of a run

  /** How the n-th call would be answered. */
  type Upstream = (nat, Payload) -> Reply

  /** One upstream call of a run that the loop went on from. */
  datatype Hop = Hop(request: Payload, reply: Reply, answer: string, openThinking: bool)

  function HopUsage(hop: Hop): Usage {
    UsageOf(hop.reply.notes)
  }

  function Answers(hops: seq<Hop>): string {
    if hops == [] then "" else Answers(hops[..|hops| - 1]) + hops[|hops| - 1].answer
  }

  /** The running totals of the loop. */
  datatype Totals = Totals(inputTokens: int, outputTokens: int, credits: real, cacheRead: int, cacheWrite: int) {
    function Add(u: Usage): Totals {
      Totals(inputTokens + u.inputTokens, outputTokens + u.outputTokens, credits + u.credits,
             cacheRead + u.cacheRead, cacheWrite + u.cacheWrite)
    }
  }

  function Sum(hops: seq<Hop>): Totals {
    if hops == [] then Totals(0, 0, 0.0, 0, 0) else Sum(hops[..|hops| - 1]).Add(HopUsage(hops[|hops| - 1]))
  }

  /** The payload continuations replay: the last followup seen, or the request itself. */
  function BaseAfter(payload: Payload, hops: seq<Hop>): Payload {
    if hops == [] then payload
    else
      var u := HopUsage(hops[|hops| - 1]);
      if u.followup.Some? then u.followup.value else BaseAfter(payload, hops[..|hops| - 1])
  }

  /** The answer text that payload has not seen. */
  function SinceBase(hops: seq<Hop>): string {
    if hops == [] then ""
    else
      var last := hops[|hops| - 1];
      if HopUsage(last).followup.Some? then last.answer else SinceBase(hops[..|hops| - 1]) + last.answer
  }

  function HopCut(hop: Hop): bool {
    CutAtOutputCap(ToolCount(hop.reply.deliveries), hop.openThinking, HopUsage(hop), hop.answer)
  }

  /**
   The hops a run may have made: each asks for what the ones before it left open, adds the text
   of its reply, and was only asked for because the one before it was cut at the output cap.
   */
  ghost predicate IsRun(payload: Payload, hops: seq<Hop>, upstream: Upstream, estimate: string -> int) {
    forall i {:trigger hops[i]} :: 0 <= i < |hops| ==> IsHop(payload, hops[..i], i, hops[i], upstream, estimate)
  }

  ghost predicate IsHop(payload: Payload, before: seq<Hop>, i: nat, hop: Hop, upstream: Upstream,
                        estimate: string -> int) {
    && hop.reply == upstream(i, hop.request)
    && hop.openThinking == HopOpen(i > 0, hop.reply.deliveries, "", false)
    && hop.answer == (if i == 0 then HopText(false, hop.reply.deliveries, "", false)
                      else Continued(OverlapTail(Answers(before)), hop.reply.deliveries))
    && (i == 0 ==> hop.request == payload)
    && (i > 0 ==> before != [] && Asked(payload, before, hop.request, estimate))
  }

  /** The request that follows the hops `before`. */
  ghost predicate Asked(payload: Payload, before: seq<Hop>, request: Payload, estimate: string -> int)
    requires before != []
  {
    var last := before[|before| - 1];
    var (budget, ok) := RemainingOutputBudget(payload, Sum(before).outputTokens, Answers(before), estimate);
    && last.reply.err == NoError && HopCut(last) && !last.reply.goneBeforeNext
    && ok
    && request == BuildContinuationPayload(BaseAfter(payload, before), SinceBase(before), budget)
  }

  lemma {:induction false} IsRunSnoc(payload: Payload, hops: seq<Hop>, hop: Hop, upstream: Upstream,
                                     estimate: string -> int)
    requires IsRun(payload, hops, upstream, estimate)
    requires IsHop(payload, hops, |hops|, hop, upstream, estimate)
    ensures IsRun(payload, hops + [hop], upstream, estimate)
  {
    hide IsHop;
    var all := hops + [hop];
    forall i | 0 <= i < |all|
      ensures IsHop(payload, all[..i], i, all[i], upstream, estimate)
    {
      if i < |hops| {
        assert all[..i] == hops[..i] && all[i] == hops[i];
      } else {
        assert all[..i] == hops;
      }
    }
  }

  lemma HopsSnoc(payload: Payload, hops: seq<Hop>, hop: Hop)
    ensures var all, u := hops + [hop], HopUsage(hop);
            && all[|all| - 1] == hop && all[..|all| - 1] == hops && all[0] == (if hops == [] then hop else hops[0])
            && Answers(all) == Answers(hops) + hop.answer
            && Sum(all) == Sum(hops).Add(u)
            && BaseAfter(payload, all) == (if u.followup.Some? then u.followup.value else BaseAfter(payload, hops))
            && SinceBase(all) == (if u.followup.Some? then "" else SinceBase(hops)) + hop.answer
  {
    var all := hops + [hop];
    assert all[..|all| - 1] == hops;
  }

  /** The reason reported for a run is that of the last call that succeeded. */
  function FinalStop(hops: seq<Hop>): string {
    if hops == [] then ""
    else if hops[|hops| - 1].reply.err == NoError then HopUsage(hops[|hops| - 1]).stopReason
    else FinalStop(hops[..|hops| - 1])
  }

  /** The reason and the completion once each, credits and cache only when there are any. */
  function Reports(stopReason: string, sum: Totals): seq<Note> {
    [StopNote(stopReason)]
    + (if sum.credits > 0.0 then [CreditsNote(sum.credits)] else [])
    + (if sum.cacheRead + sum.cacheWrite > 0 then [CacheNote(sum.cacheRead, sum.cacheWrite)] else [])
    + [CompleteNote(sum.inputTokens, sum.outputTokens)]
  }

  // ---------------------------------------------------------------- the loop

  /** The variables of the loop after the calls `hops`. */
  datatype Progress = Progress(answer: string, totals: Totals, stopReason: string, base: Payload, sinceBase: string)

  function ProgressOf(payload: Payload, hops: seq<Hop>): Progress {
    Progress(Answers(hops), Sum(hops), FinalStop(hops), BaseAfter(payload, hops), SinceBase(hops))
  }

  lemma ProgressSnoc(payload: Payload, hops: seq<Hop>, hop: Hop)
    ensures var before, u := ProgressOf(payload, hops), HopUsage(hop);
            ProgressOf(payload, hops + [hop]) == Progress(
              before.answer + hop.answer,
              before.totals.Add(u),
              if hop.reply.err == NoError then u.stopReason else before.stopReason,
              if u.followup.Some? then u.followup.value else before.base,
              (if u.followup.Some? then "" else before.sinceBase) + hop.answer)
  {
    HopsSnoc(payload, hops, hop);
  }

  /** What the client has been sent: the first hop as it came, then text that makes up the rest of the answer. */
  ghost predicate AnswerDelivered(hops: seq<Hop>, sent: seq<Sent>, later: seq<Sent>) {
    if hops == [] then sent == [] && later == []
    else
      && sent == PassedThrough(hops[0].reply.deliveries) + later
      && hops[0].answer + AnswerSent(later) == Answers(hops)
  }

  lemma AnswerDeliveredSnoc(payload: Payload, hops: seq<Hop>, sent: seq<Sent>, later: seq<Sent>, hop: Hop,
                            more: seq<Sent>)
    requires AnswerDelivered(hops, sent, later)
    requires if hops == [] then more == PassedThrough(hop.reply.deliveries) else hop.answer == AnswerSent(more)
    ensures AnswerDelivered(hops + [hop], sent + more, if hops == [] then [] else later + more)
  {
    hide PassedThrough, Answers, AnswerSent, Sum, BaseAfter, SinceBase, HopUsage;
    HopsSnoc(payload, hops, hop);
    NothingAnswered();
    if hops != [] {
      AnswerSentConcat(later, more);
      ConcatAssociative(hops[0].answer, AnswerSent(later), AnswerSent(more));
      ConcatAssociative(PassedThrough(hops[0].reply.deliveries), later, more);
    }
  }

  lemma AnswerSentConcat(a: seq<Sent>, b: seq<Sent>)
    ensures AnswerSent(a + b) == AnswerSent(a) + AnswerSent(b)
  {
    CollectConcat(a, b, (s: Sent) => if s.SentText? && !s.isThinking then s.text else "");
  }

  lemma NothingAnswered()
    ensures Answers([]) == "" && AnswerSent([]) == ""
  {
  }

  /** What the client is told of one more hop, character by character with the calls in their places. */
  function HopTold(before: seq<Hop>, deliveries: seq<Delivery>): seq<Spoken> {
    if before == [] then Line(PassedThrough(deliveries))
    else ContinuedLine(OverlapTail(Answers(before)), deliveries)
  }

  function Told(hops: seq<Hop>): seq<Spoken> {
    if hops == [] then []
    else Told(hops[..|hops| - 1]) + HopTold(hops[..|hops| - 1], hops[|hops| - 1].reply.deliveries)
  }

  lemma ToldSnoc(hops: seq<Hop>, hop: Hop)
    ensures Told(hops + [hop]) == Told(hops) + HopTold(hops, hop.reply.deliveries)
  {
    hide HopTold;
    assert (hops + [hop])[..|hops|] == hops;
  }

  lemma LineConcat(a: seq<Sent>, b: seq<Sent>)
    ensures Line(a + b) == Line(a) + Line(b)
  {
    CollectConcat(a, b, SpokenOf);
  }

  /** What a hop told comes after what the ones before it told. */
  lemma HopIsTold(hops: seq<Hop>, sent: seq<Sent>, deliveries: seq<Delivery>, more: seq<Sent>, finish: bool)
    requires Line(sent) == Told(hops)
    requires if hops == [] then more == PassedThrough(deliveries)
             else if finish then Line(more) == ContinuedLine(OverlapTail(Answers(hops)), deliveries)
             else Line(more) <= ContinuedLine(OverlapTail(Answers(hops)), deliveries)
    ensures Told(hops) <= Line(sent + more) <= Told(hops) + HopTold(hops, deliveries)
    ensures finish || hops == [] ==> Line(sent + more) == Told(hops) + HopTold(hops, deliveries)
  {
    hide Line, Told, ContinuedLine, OverlapTail, Answers, PassedThrough;
    LineConcat(sent, more);
  }

  lemma NothingTold()
    ensures Line([]) == [] == Told([])
  {
  }

  /**
   Runs the request and its continuations.  `sent` and `reports` are the client's callbacks;
   `hops` records the upstream calls whose results were used, `later` what the client was
   sent after the first of them, and `asked` the last request made.
   */
  method RunAutoContinue(payload: Payload, upstream: Upstream, estimate: string -> int, maxContinuations: nat)
      returns (err: CallError, sent: seq<Sent>, reports: seq<Note>, calls: nat,
               ghost hops: seq<Hop>, ghost later: seq<Sent>, ghost asked: Payload)
    ensures 1 <= calls <= maxContinuations + 1
    ensures IsRun(payload, hops, upstream, estimate)
    // A run that ends well tells the client each thing once, and has sent every hop's text.
    ensures err == NoError ==>
              && |hops| == calls && reports == Reports(FinalStop(hops), Sum(hops))
              && AnswerDelivered(hops, sent, later)
    // Whatever happens, each hop's text and calls reach the client in their order, the last at least in part.
    ensures |hops| == calls ==> Line(sent) == Told(hops)
    ensures |hops| != calls ==>
              Told(hops) <= Line(sent) <= Told(hops) + HopTold(hops, upstream(calls - 1, asked).deliveries)
    // It ends where a continuation failed, the limits were reached or nothing was left to continue.
    ensures err == NoError ==>
              || (calls > 1 && hops[calls - 1].reply.err != NoError)
              || calls == maxContinuations + 1
              || !HopCut(hops[calls - 1])
              || !RemainingOutputBudget(payload, Sum(hops).outputTokens, Answers(hops), estimate).1
    // Otherwise the first call failed or the client left, and nothing is reported.
    ensures err != NoError ==> reports == []
    ensures err != NoError && |hops| != calls ==>
              var reply := upstream(calls - 1, asked);
              |hops| == calls - 1 && reply.err == err && (calls == 1 || err == CanceledError || reply.goneAfter)
    ensures err != NoError && |hops| == calls ==> err == CanceledError && hops[calls - 1].reply.goneBeforeNext
  {
    hide Reports, IsRun, IsHop, Asked, AnswerDelivered, Answers, Sum, FinalStop, BaseAfter, SinceBase, UsageOf,
           RemainingOutputBudget, HopText, HopOpen, CutAtOutputCap, PassedThrough, AnswerSent, OverlapTail, Continued,
           BuildContinuationPayload, ToolCount, Line, Told, HopTold, ContinuedLine;
    NothingTold();
    var answer, sinceBase, stopReason := "", "", "";
    var totals := Totals(0, 0, 0.0, 0, 0);
    var next, base := payload, payload;
    sent, reports, calls, hops, later := [], [], 0, [], [];
    NothingRun(payload, upstream, estimate);
    while true
      invariant calls == |hops| <= maxContinuations
      invariant IsRun(payload, hops, upstream, estimate)
      invariant Progress(answer, totals, stopReason, base, sinceBase) == ProgressOf(payload, hops)
      invariant AnswerDelivered(hops, sent, later) && Line(sent) == Told(hops)
      invariant if hops == [] then next == payload else Asked(payload, hops, next, estimate)
      decreases maxContinuations - calls
    {
      var hop := calls;
      var state := new ContinuationHop(hop > 0, if hop > 0 then OverlapTail(answer) else "");
      var reply := upstream(hop, next);
      calls, asked := calls + 1, next;
      var returnNow := reply.err != NoError && (hop == 0 || reply.err == CanceledError || reply.goneAfter);
      var openThinking := Deliver(state, reply.deliveries, !returnNow);
      HopIsTold(hops, sent, reply.deliveries, state.sent, !returnNow);
      if returnNow {
        return reply.err, sent + state.sent, [], calls, hops, later, asked;
      }
      var usage := UsageOf(reply.notes);
      ghost var done := Hop(next, reply, state.answer, openThinking);
      MakeHop(payload, hops, done, upstream, estimate);
      IsRunSnoc(payload, hops, done, upstream, estimate);
      ProgressSnoc(payload, hops, done);
      AnswerDeliveredSnoc(payload, hops, sent, later, done, state.sent);
      ToldSnoc(hops, done);
      answer := answer + state.answer;
      totals := totals.Add(usage);
      later := if hop > 0 then later + state.sent else [];
      sent, hops := sent + state.sent, hops + [done];
      if reply.err != NoError { break; }
      stopReason := usage.stopReason;
      if usage.followup.Some? {
        base, sinceBase := usage.followup.value, "";
      }
      sinceBase := sinceBase + state.answer;
      if hop >= maxContinuations || !CutAtOutputCap(state.toolCount, openThinking, usage, state.answer) { break; }
      var (budget, ok) := RemainingOutputBudget(payload, totals.outputTokens, answer, estimate);
      if !ok { break; }
      if reply.goneBeforeNext {
        return CanceledError, sent, [], calls, hops, later, asked;
      }
      next := BuildContinuationPayload(base, sinceBase, budget);
      MakeAsked(payload, hops, next, estimate);
    }
    err := NoError;
    reports := Reports(stopReason, totals);
  }

  lemma {:induction false} MakeHop(payload: Payload, hops: seq<Hop>, hop: Hop, upstream: Upstream,
                                   estimate: string -> int)
    requires hop.reply == upstream(|hops|, hop.request)
    requires hop.openThinking == HopOpen(hops != [], hop.reply.deliveries, "", false)
    requires if hops == [] then hop.request == payload && hop.answer == HopText(false, hop.reply.deliveries, "", false)
             else
               && Asked(payload, hops, hop.request, estimate)
               && hop.answer == Continued(OverlapTail(Answers(hops)), hop.reply.deliveries)
    ensures IsHop(payload, hops, |hops|, hop, upstream, estimate)
  {
    hide HopOpen, HopText, Continued, OverlapTail, Asked, Answers;
  }

  lemma {:induction false} MakeAsked(payload: Payload, hops: seq<Hop>, request: Payload, estimate: string -> int)
    requires hops != []
    requires var last := hops[|hops| - 1]; last.reply.err == NoError && HopCut(last) && !last.reply.goneBeforeNext
    requires var (budget, ok) := RemainingOutputBudget(payload, Sum(hops).outputTokens, Answers(hops), estimate);
             ok && request == BuildContinuationPayload(BaseAfter(payload, hops), SinceBase(hops), budget)
    ensures Asked(payload, hops, request, estimate)
  {
    hide HopUsage, CutAtOutputCap, Sum, Answers, BaseAfter, SinceBase, BuildContinuationPayload, RemainingOutputBudget;
  }

  lemma NothingRun(payload: Payload, upstream: Upstream, estimate: string -> int)
    ensures IsRun(payload, [], upstream, estimate)
    ensures Progress("", Totals(0, 0, 0.0, 0, 0), "", payload, "") == ProgressOf(payload, [])
    ensures AnswerDelivered([], [], [])
  {
  }

  // ---------------------------------------------------------------- what the figures of a run are

  /** Of each kind of note the last one counts. */
  lemma {:induction false} LastNoteCounts(notes: seq<Note>, i: nat)
    requires i < |notes|
    ensures notes[i].StopNote? && (forall j :: i < j < |notes| ==> !notes[j].StopNote?) ==>
              UsageOf(notes).stopReason == notes[i].reason
    ensures notes[i].CacheNote? && (forall j :: i < j < |notes| ==> !notes[j].CacheNote?) ==>
              UsageOf(notes).cacheRead == notes[i].read && UsageOf(notes).cacheWrite == notes[i].write
    ensures notes[i].CompleteNote? && (forall j :: i < j < |notes| ==> !notes[j].CompleteNote?) ==>
              && UsageOf(notes).inputTokens == notes[i].inputTokens
              && UsageOf(notes).outputTokens == notes[i].outputTokens
    ensures notes[i].FollowupNote? && (forall j :: i < j < |notes| ==> !notes[j].FollowupNote?) ==>
              UsageOf(notes).followup == Some(notes[i].payload)
  {
    if i < |notes| - 1 { LastNoteCounts(notes[..|notes| - 1], i); }
  }

  /** A figure of which no note came is empty. */
  lemma {:induction false} NoNoteNoFigure(notes: seq<Note>)
    ensures (forall note :: note in notes ==> !note.StopNote?) ==> UsageOf(notes).stopReason == ""
    ensures (forall note :: note in notes ==> !note.CacheNote?) ==>
              UsageOf(notes).cacheRead == UsageOf(notes).cacheWrite == 0
    ensures (forall note :: note in notes ==> !note.CompleteNote?) ==>
              UsageOf(notes).inputTokens == UsageOf(notes).outputTokens == 0
    ensures (forall note :: note in notes ==> !note.FollowupNote?) ==> UsageOf(notes).followup == None
  {
    if notes != [] { NoNoteNoFigure(notes[..|notes| - 1]); }
  }

  /** A figure added up over the calls of a run. */
  function Total(hops: seq<Hop>, figure: Usage -> real): real {
    if hops == [] then 0.0 else figure(HopUsage(hops[0])) + Total(hops[1..], figure)
  }

  lemma {:induction false} TotalSnoc(hops: seq<Hop>, hop: Hop, figure: Usage -> real)
    ensures Total(hops + [hop], figure) == Total(hops, figure) + figure(HopUsage(hop))
  {
    hide HopUsage;
    if hops == [] {
      assert hops + [hop] == [hop] && [hop][1..] == [];
    } else {
      TotalSnoc(hops[1..], hop, figure);
      assert (hops + [hop])[0] == hops[0] && (hops + [hop])[1..] == hops[1..] + [hop];
    }
  }

  lemma {:induction false} SumIsTotals(hops: seq<Hop>)
    ensures Sum(hops).inputTokens as real == Total(hops, (u: Usage) => u.inputTokens as real)
    ensures Sum(hops).outputTokens as real == Total(hops, (u: Usage) => u.outputTokens as real)
    ensures Sum(hops).credits == Total(hops, (u: Usage) => u.credits)
    ensures Sum(hops).cacheRead as real == Total(hops, (u: Usage) => u.cacheRead as real)
    ensures Sum(hops).cacheWrite as real == Total(hops, (u: Usage) => u.cacheWrite as real)
  {
    hide HopUsage;
    if hops != [] {
      var init, last := hops[..|hops| - 1], hops[|hops| - 1];
      assert hops == init + [last];
      SumIsTotals(init);
      TotalSnoc(init, last, (u: Usage) => u.inputTokens as real);
      TotalSnoc(init, last, (u: Usage) => u.outputTokens as real);
      TotalSnoc(init, last, (u: Usage) => u.credits);
      TotalSnoc(init, last, (u: Usage) => u.cacheRead as real);
      TotalSnoc(init, last, (u: Usage) => u.cacheWrite as real);
    }
  }

  /**
   Read as a call's own notes are read, the reports of a run say the totals over all of its calls: every
   token and all credits once.  Cache counts are kept back only where there are none.
   */
  lemma ReportsSayTheTotals(hops: seq<Hop>, stopReason: string)
    ensures var u := UsageOf(Reports(stopReason, Sum(hops)));
            var credits, read, write := Total(hops, (u: Usage) => u.credits),
                                        Total(hops, (u: Usage) => u.cacheRead as real),
                                        Total(hops, (u: Usage) => u.cacheWrite as real);
            && u.stopReason == stopReason
            && u.inputTokens as real == Total(hops, (u: Usage) => u.inputTokens as real)
            && u.outputTokens as real == Total(hops, (u: Usage) => u.outputTokens as real)
            && u.credits == (if credits > 0.0 then credits else 0.0)
            && u.cacheRead as real == (if read + write > 0.0 then read else 0.0)
            && u.cacheWrite as real == (if read + write > 0.0 then write else 0.0)
  {
    SumIsTotals(hops);
    ReportsReadBack(stopReason, Sum(hops));
  }

  /** The reason reported is that of the last call that succeeded. */
  lemma {:induction false} FinalStopIsLast(hops: seq<Hop>, i: nat)
    requires i < |hops| && hops[i].reply.err == NoError
    requires forall j :: i < j < |hops| ==> hops[j].reply.err != NoError
    ensures FinalStop(hops) == HopUsage(hops[i]).stopReason
  {
    if i < |hops| - 1 { FinalStopIsLast(hops[..|hops| - 1], i); }
  }

  lemma ReportsReadBack(stopReason: string, sum: Totals)
    ensures var u := UsageOf(Reports(stopReason, sum));
            && u.stopReason == stopReason && u.inputTokens == sum.inputTokens && u.outputTokens == sum.outputTokens
            && u.credits == (if sum.credits > 0.0 then sum.credits else 0.0)
            && (if sum.cacheRead + sum.cacheWrite > 0
                then u.cacheRead == sum.cacheRead && u.cacheWrite == sum.cacheWrite
                else u.cacheRead == u.cacheWrite == 0)
  {
    hide UsageOf;
    NothingNoted();
    var notes := [StopNote(stopReason)];
    NoteAdded([], StopNote(stopReason));
    assert [] + [StopNote(stopReason)] == notes;
    if sum.credits > 0.0 {
      NoteAdded(notes, CreditsNote(sum.credits));
      notes := notes + [CreditsNote(sum.credits)];
    }
    if sum.cacheRead + sum.cacheWrite > 0 {
      NoteAdded(notes, CacheNote(sum.cacheRead, sum.cacheWrite));
      notes := notes + [CacheNote(sum.cacheRead, sum.cacheWrite)];
    }
    NoteAdded(notes, CompleteNote(sum.inputTokens, sum.outputTokens));
    assert Reports(stopReason, sum) == notes + [CompleteNote(sum.inputTokens, sum.outputTokens)];
  }

  lemma NothingNoted()
    ensures UsageOf([]) == NO_USAGE
  {
  }

  lemma NoteAdded(notes: seq<Note>, note: Note)
    ensures var u := UsageOf(notes);
            UsageOf(notes + [note])
            == match note
               case StopNote(reason) => u.(stopReason := reason)
               case CreditsNote(credits) => u.(credits := u.credits + credits)
               case CacheNote(read, write) => u.(cacheRead := read, cacheWrite := write)
               case CompleteNote(i, o) => u.(inputTokens := i, outputTokens := o)
               case FollowupNote(payload) => u.(followup := Some(payload))
  {
    assert (notes + [note])[..|notes|] == notes;
  }

  /**
   When a run goes on after its last call, the limit on continuations aside: that call answered with some
   visible text and no tool calls, ended outside a thinking block, and stopped at the output cap, by its word
   or, without one, by its size; and the client's own limit leaves room.
   */
  lemma GoesOnExactlyWhen(payload: Payload, hops: seq<Hop>, estimate: string -> int)
    requires hops != []
    ensures var last, used := hops[|hops| - 1], Sum(hops).outputTokens;
            var u := HopUsage(last);
            HopCut(last) && RemainingOutputBudget(payload, used, Answers(hops), estimate).1 <==>
              && ToolCalls(last.reply.deliveries) == [] && !last.openThinking
              && (exists k :: 0 <= k < |last.answer| && !IsBlank(last.answer[k]))
              && (if exists k :: 0 <= k < |u.stopReason| && !IsBlank(u.stopReason[k])
                  then IsOutputCapStopReason(u.stopReason) else u.outputTokens >= 7782)
              && (payload.inference.Inference? && payload.inference.maxTokens > 0 ==>
                    (if used <= 0 then estimate(Answers(hops)) else used) < payload.inference.maxTokens)
  {
    hide HopUsage, Sum, Answers, ToolCount, ToolCalls, TrimSpace, ToLower;
    var last := hops[|hops| - 1];
    NoToolCalls(last.reply.deliveries);
    BlankExactlyWhen(last.answer);
    BlankExactlyWhen(HopUsage(last).stopReason);
    LowerOfNothing();
  }

  lemma LowerOfNothing()
    ensures ToLower("") == ""
  {
  }

  lemma BlankExactlyWhen(s: string)
    ensures TrimSpace(s) != "" <==> exists k :: 0 <= k < |s| && !IsBlank(s[k])
  {
    var i, j := TrimSpaceIsMiddle(s);
    hide TrimSpace, IsBlank;
  }

  lemma {:induction false} NoToolCalls(deliveries: seq<Delivery>)
    ensures ToolCalls(deliveries) == [] <==> ToolCount(deliveries) == 0
  {
    if deliveries != [] { NoToolCalls(deliveries[1..]); }
  }

  // ---------------------------------------------------------------- what every run keeps

  /** A call reports an output within the limit its own request carries; one that failed reports none. */
  ghost predicate KeepsGrant(hop: Hop) {
    var u := HopUsage(hop);
    && (hop.request.inference.Inference? ==> 0 <= u.outputTokens <= hop.request.inference.maxTokens)
    && (u.followup.Some? ==> u.followup.value.inference.Inference?)
  }

  ghost predicate WithinGrants(hops: seq<Hop>) {
    forall i :: 0 <= i < |hops| ==> KeepsGrant(hops[i])
  }

  ghost predicate StartsWithOutput(hops: seq<Hop>) {
    hops != [] && HopUsage(hops[0]).outputTokens > 0
  }

  ghost predicate WithinBudget(payload: Payload, hops: seq<Hop>)
    requires payload.inference.Inference?
  {
    && 0 <= Sum(hops).outputTokens <= payload.inference.maxTokens
    && (StartsWithOutput(hops) ==> Sum(hops).outputTokens > 0)
    && BaseAfter(payload, hops).inference.Inference?
  }

  /**
   If upstream keeps to each call's limit, all calls together keep to the client's. It is enough that
   the first call reports some output, or that the estimate standing in for it is never negative.
   */
  lemma {:induction false} BudgetKept(payload: Payload, hops: seq<Hop>, upstream: Upstream, estimate: string -> int)
    requires IsRun(payload, hops, upstream, estimate)
    requires payload.inference.Inference? && payload.inference.maxTokens > 0
    requires WithinGrants(hops)
    requires StartsWithOutput(hops) || forall text :: estimate(text) >= 0
    ensures Sum(hops).outputTokens <= payload.inference.maxTokens
    ensures WithinBudget(payload, hops)
  {
    hide IsHop, Asked, HopUsage, Sum, BaseAfter, StartsWithOutput, KeepsGrant, WithinGrants;
    if hops == [] {
      NothingSpent(payload);
    } else {
      var n := |hops| - 1;
      var before, hop := hops[..n], hops[n];
      assert IsHop(payload, before, n, hop, upstream, estimate);
      assert hops == before + [hop];
      GrantsPrefix(hops);
      RunPrefix(payload, hops, upstream, estimate);
      SameStart(before, hop);
      if n > 0 {
        BudgetKept(payload, before, upstream, estimate);
      } else {
        NothingSpent(payload);
      }
      BudgetStep(payload, before, hop, upstream, estimate);
    }
  }

  lemma GrantsPrefix(hops: seq<Hop>)
    requires hops != [] && WithinGrants(hops)
    ensures KeepsGrant(hops[|hops| - 1]) && WithinGrants(hops[..|hops| - 1])
  {
    hide KeepsGrant;
  }

  lemma NothingSpent(payload: Payload)
    requires payload.inference.Inference? && payload.inference.maxTokens > 0
    ensures WithinBudget(payload, []) && Sum([]).outputTokens == 0
  {
  }

  lemma SameStart(before: seq<Hop>, hop: Hop)
    ensures before != [] ==> StartsWithOutput(before + [hop]) == StartsWithOutput(before)
  {
  }

  lemma BudgetStep(payload: Payload, before: seq<Hop>, hop: Hop, upstream: Upstream, estimate: string -> int)
    requires payload.inference.Inference? && payload.inference.maxTokens > 0 && WithinBudget(payload, before)
    requires IsHop(payload, before, |before|, hop, upstream, estimate) && KeepsGrant(hop)
    requires StartsWithOutput(before + [hop]) || forall text :: estimate(text) >= 0
    ensures WithinBudget(payload, before + [hop])
  {
    hide IsHop, HopUsage, Sum, BaseAfter;
    HopsSnoc(payload, before, hop);
    if before != [] {
      assert (before + [hop])[0] == before[0];
      GrantIsWhatIsLeft(payload, before, |before|, hop, upstream, estimate);
    } else {
      FirstAsksAll(payload, before, hop, upstream, estimate);
      NothingSpent(payload);
    }
  }

  lemma {:induction false} RunPrefix(payload: Payload, hops: seq<Hop>, upstream: Upstream, estimate: string -> int)
    requires hops != [] && IsRun(payload, hops, upstream, estimate)
    ensures IsRun(payload, hops[..|hops| - 1], upstream, estimate)
  {
    hide IsHop;
    var before := hops[..|hops| - 1];
    forall i | 0 <= i < |before| ensures IsHop(payload, before[..i], i, before[i], upstream, estimate) {
      assert before[..i] == hops[..i] && before[i] == hops[i];
    }
  }

  lemma FirstAsksAll(payload: Payload, before: seq<Hop>, hop: Hop, upstream: Upstream, estimate: string -> int)
    requires IsHop(payload, before, 0, hop, upstream, estimate)
    ensures hop.request == payload
  {
  }

  /** A continuation's own limit is the client's less everything produced before it. */
  lemma {:induction false} GrantIsWhatIsLeft(payload: Payload, before: seq<Hop>, n: nat, hop: Hop, upstream: Upstream,
                                             estimate: string -> int)
    requires n > 0 && IsHop(payload, before, n, hop, upstream, estimate)
    requires payload.inference.Inference? && payload.inference.maxTokens > 0
    requires BaseAfter(payload, before).inference.Inference?
    ensures var used := Sum(before).outputTokens;
            var counted := if used <= 0 then estimate(Answers(before)) else used;
            hop.request.inference == Inference(payload.inference.maxTokens - counted)
  {
    hide HopOpen, HopText, Continued, OverlapTail, Answers, SinceBase, CutAtOutputCap, HopUsage, Sum, BaseAfter;
  }

  /**
   Every continuation replays a whole turn and the whole answer to it so far: that of the last followup
   payload a hop returned, `m` being that hop, or of the request, from the first hop on, if none did.
   */
  lemma {:induction false} ContinuationsReplayEverything(payload: Payload, hops: seq<Hop>, upstream: Upstream,
                                                         estimate: string -> int, n: nat) returns (m: nat)
    requires IsRun(payload, hops, upstream, estimate)
    requires 0 < n < |hops|
    ensures m < n && forall i :: m < i < n ==> HopUsage(hops[i]).followup.None?
    ensures HopUsage(hops[m]).followup.None? ==> m == 0
    ensures var base := if HopUsage(hops[m]).followup.Some? then HopUsage(hops[m]).followup.value else payload;
            hops[n].request.history == base.history + [UserTurn(base.current), AssistantTurn(Answers(hops[m..n]))]
    ensures hops[n].request.current == AUTO_CONTINUE_PROMPT
    ensures payload.inference.NoInference? || payload.inference.maxTokens <= 0 ==>
              hops[n].request.inference
              == (if HopUsage(hops[m]).followup.Some? then HopUsage(hops[m]).followup.value else payload).inference
  {
    hide HopOpen, HopText, Continued, OverlapTail, Answers, SinceBase, CutAtOutputCap, HopUsage, Sum, BaseAfter,
           RemainingOutputBudget;
    assert IsHop(payload, hops[..n], n, hops[n], upstream, estimate);
    var before := hops[..n];
    m := BaseIsLastFollowup(payload, before);
    assert before[m..] == hops[m..n];
    if payload.inference.NoInference? || payload.inference.maxTokens <= 0 {
      NoLimitNoBudget(payload, Sum(before).outputTokens, Answers(before), estimate);
    }
  }

  lemma NoLimitNoBudget(payload: Payload, used: int, answer: string, estimate: string -> int)
    requires payload.inference.NoInference? || payload.inference.maxTokens <= 0
    ensures RemainingOutputBudget(payload, used, answer, estimate) == (0, true)
  {
  }

  lemma {:induction false} BaseIsLastFollowup(payload: Payload, hops: seq<Hop>) returns (m: nat)
    requires hops != []
    ensures m < |hops| && forall i :: m < i < |hops| ==> HopUsage(hops[i]).followup.None?
    ensures HopUsage(hops[m]).followup.None? ==> m == 0
    ensures BaseAfter(payload, hops)
              == if HopUsage(hops[m]).followup.Some? then HopUsage(hops[m]).followup.value else payload
    ensures SinceBase(hops) == Answers(hops[m..])
    decreases |hops|
  {
    hide HopUsage;
    var init, last := hops[..|hops| - 1], hops[|hops| - 1];
    if HopUsage(last).followup.Some? || init == [] {
      m := |hops| - 1;
      AnswersOfOne(last);
      assert hops[m..] == [last];
    } else {
      m := BaseIsLastFollowup(payload, init);
      assert hops[m..][..|hops| - 1 - m] == init[m..] && hops[m..][|hops| - 1 - m] == last;
    }
  }

  lemma AnswersOfOne(hop: Hop)
    ensures Answers([hop]) == hop.answer
  {
    assert [hop][..0] == [];
  }

  /**
   What every continuation of a run loses, said of the whole answer before it: the longest start of its
   opening, of at most 1024 characters, that this answer ends with, and nothing if that trims to fewer than
   sixteen characters or repeats whole lines.  All the rest of its text, and all its calls, are told.
   */
  lemma {:induction false} ContinuationsDropTheRepeat(payload: Payload, hops: seq<Hop>, upstream: Upstream,
                                                      estimate: string -> int, i: nat) returns (n: nat)
    requires IsRun(payload, hops, upstream, estimate)
    requires 0 < i < |hops|
    ensures var deliveries, answer := hops[i].reply.deliveries, Answers(hops[..i]);
            var text, opening := HopText(true, deliveries, "", false), HopText(true, Opening(deliveries), "", false);
            && EndsWithStart(answer, opening, n) && (forall m :: m > n ==> !EndsWithStart(answer, opening, m))
            && var drop := if |TrimSpace(opening[..n])| < MIN_CONTINUATION_OVERLAP || TakesWholeLine(answer, n)
                           then 0 else n;
               && drop <= |text| && hops[i].answer == text[drop..]
               && drop <= |HopLine(deliveries, "", false)|
               && HopTold(hops[..i], deliveries) == HopLine(deliveries, "", false)[drop..]
  {
    hide HopText, HopLine, Opening, DropCount, OverlapTail, Asked, Answers, EndsWithStart, TrimSpace;
    assert IsHop(payload, hops[..i], i, hops[i], upstream, estimate);
    var deliveries, answer := hops[i].reply.deliveries, Answers(hops[..i]);
    OpeningIsPrefix(deliveries, "", false);
    LineBegins(deliveries, "", false);
    n := DroppedIsLongestRepeat(answer, HopText(true, Opening(deliveries), "", false));
  }

  /** A tool-free continuation adds its reference answer without the start that repeats the tail. */
  lemma ContinuationWithoutTools(tail: string, deliveries: seq<Delivery>)
    requires ToolCount(deliveries) == 0
    ensures var text := AnswerOf(RawText(deliveries)); Continued(tail, deliveries) == text[DropCount(tail, text)..]
  {
    hide HopText, RawText, DropCount;
    HopTextWithoutTools(true, deliveries, "");
    assert "" + RawText(deliveries) == RawText(deliveries);
  }
}
