/**
 The incremental `<thinking>` splitter (proxy/thinking_split.go).

 `Scan` is the reference: it reads a complete text from left to right, drops each tag it was
 waiting for and labels every other character as answer or reasoning.  `Settled` and `Pending`
 say what an incremental reader can already know and what it must still hold back; the class
 is proved to release exactly the first and to keep exactly the second.
 */
module ThinkingSplit {
  import opened Text

  const OPEN_TAG := "<thinking>"
  const CLOSE_TAG := "</thinking>"

  function TagFor(inBlock: bool): (tag: string)
    ensures 0 < |tag| <= 11
  {
    if inBlock then CLOSE_TAG else OPEN_TAG
  }

  /** One character of output and the sink it belongs to. */
  datatype Mark = Mark(ch: char, thinking: bool)

  /** One call of the onText or onThinking sink. */
  datatype Segment = Segment(text: string, thinking: bool)

  function Marks(s: string, thinking: bool): (m: seq<Mark>)
    ensures |m| == |s|
    ensures forall i :: 0 <= i < |s| ==> m[i] == Mark(s[i], thinking)
  {
    seq(|s|, i requires 0 <= i < |s| => Mark(s[i], thinking))
  }

  /**
   The labelled characters of a list of sink calls: two lists with equal marks are equal once adjacent calls
   of one sink are merged.
   */
  function SegmentMarks(segments: seq<Segment>): seq<Mark> {
    Collect(segments, (seg: Segment) => Marks(seg.text, seg.thinking))
  }

  function KindPart(thinking: bool): Mark -> string {
    (m: Mark) => if m.thinking == thinking then [m.ch] else ""
  }

  /** The characters of one kind, in order. */
  function Only(marks: seq<Mark>, thinking: bool): string {
    Collect(marks, KindPart(thinking))
  }

  function AnswerOf(s: string): string {
    Only(Scan(s, false), false)
  }

  // ---------------------------------------------------------------- reference

  function Scan(s: string, inBlock: bool): seq<Mark>
    decreases |s|
  {
    var tag := TagFor(inBlock);
    if s == "" then []
    else if tag <= s then Scan(s[|tag|..], !inBlock)
    else [Mark(s[0], inBlock)] + Scan(s[1..], inBlock)
  }

  /** Whether the text ends inside a block. */
  function ScanEnd(s: string, inBlock: bool): bool
    decreases |s|
  {
    var tag := TagFor(inBlock);
    if s == "" then inBlock
    else if tag <= s then ScanEnd(s[|tag|..], !inBlock)
    else ScanEnd(s[1..], inBlock)
  }

  // ---------------------------------------------------------------- what a prefix of the stream determines

  /** The output no continuation of `s` can change. */
  function Settled(s: string, inBlock: bool): seq<Mark>
    decreases |s|
  {
    var tag := TagFor(inBlock);
    if tag <= s then Settled(s[|tag|..], !inBlock)
    else if s < tag then []
    else [Mark(s[0], inBlock)] + Settled(s[1..], inBlock)
  }

  /** The end of `s` that could still grow into the tag looked for. */
  function Pending(s: string, inBlock: bool): string
    decreases |s|
  {
    var tag := TagFor(inBlock);
    if tag <= s then Pending(s[|tag|..], !inBlock)
    else if s < tag then s
    else Pending(s[1..], inBlock)
  }

  function PendingBlock(s: string, inBlock: bool): bool
    decreases |s|
  {
    var tag := TagFor(inBlock);
    if tag <= s then PendingBlock(s[|tag|..], !inBlock)
    else if s < tag then inBlock
    else PendingBlock(s[1..], inBlock)
  }

  /** What is held back is always a proper prefix of the tag being looked for. */
  lemma {:induction false} PendingIsPartialTag(s: string, inBlock: bool)
    ensures Pending(s, inBlock) < TagFor(PendingBlock(s, inBlock))
    decreases |s|
  {
    hide TagFor;
    var tag := TagFor(inBlock);
    if tag <= s {
      PendingIsPartialTag(s[|tag|..], !inBlock);
    } else if s < tag {
    } else {
      PendingIsPartialTag(s[1..], inBlock);
    }
  }

  lemma {:induction false} ScanTooShort(s: string, inBlock: bool)
    requires |s| < |TagFor(inBlock)|
    ensures Scan(s, inBlock) == Marks(s, inBlock) && ScanEnd(s, inBlock) == inBlock
    decreases |s|
  {
    hide TagFor;
    if s != "" {
      ScanTooShort(s[1..], inBlock);
    }
  }

  /** The reference output is the settled part followed by the held text as it stands. */
  lemma {:induction false} ScanIsSettledThenPending(s: string, inBlock: bool)
    ensures Scan(s, inBlock) == Settled(s, inBlock) + Marks(Pending(s, inBlock), PendingBlock(s, inBlock))
    ensures ScanEnd(s, inBlock) == PendingBlock(s, inBlock)
    decreases |s|
  {
    hide TagFor;
    var tag := TagFor(inBlock);
    if tag <= s {
      ScanIsSettledThenPending(s[|tag|..], !inBlock);
    } else if s < tag {
      ScanTooShort(s, inBlock);
    } else {
      ScanIsSettledThenPending(s[1..], inBlock);
    }
  }

  /**
   Reading `more` after `s` is the same as reading it after the pending end of `s`:
   nothing else about `s`, and nothing about how it was cut, matters any more.
   */
  lemma {:induction false} SettledExtends(s: string, inBlock: bool, more: string)
    ensures var p, b := Pending(s, inBlock), PendingBlock(s, inBlock);
            && Settled(s + more, inBlock) == Settled(s, inBlock) + Settled(p + more, b)
            && Pending(s + more, inBlock) == Pending(p + more, b)
            && PendingBlock(s + more, inBlock) == PendingBlock(p + more, b)
    decreases |s|
  {
    hide TagFor;
    var tag := TagFor(inBlock);
    if tag <= s {
      assert (s + more)[|tag|..] == s[|tag|..] + more;
      SettledExtends(s[|tag|..], !inBlock, more);
    } else if s < tag {
    } else {
      TagStaysAbsent(s, tag, more);
      assert (s + more)[1..] == s[1..] + more;
      SettledExtends(s[1..], inBlock, more);
    }
  }

  lemma TagStaysAbsent(s: string, tag: string, more: string)
    ensures tag <= s + more ==> tag <= s || s < tag
    ensures s + more < tag ==> s < tag
  {
    assert forall i :: 0 <= i < |s| ==> (s + more)[i] == s[i];
  }

  /** Characters where no tag can start are settled as they are. */
  lemma {:induction false} SettledSkip(s: string, inBlock: bool, k: int)
    requires 0 <= k <= |s|
    requires forall j :: 0 <= j < k ==> !(TagFor(inBlock) <= s[j..]) && !(s[j..] < TagFor(inBlock))
    ensures Settled(s, inBlock) == Marks(s[..k], inBlock) + Settled(s[k..], inBlock)
    ensures Pending(s, inBlock) == Pending(s[k..], inBlock)
    ensures PendingBlock(s, inBlock) == PendingBlock(s[k..], inBlock)
    decreases k
  {
    hide TagFor;
    assert s[0..] == s;
    if k > 0 {
      var rest := s[1..];
      forall j | 0 <= j < k - 1 ensures !(TagFor(inBlock) <= rest[j..]) && !(rest[j..] < TagFor(inBlock)) {
        assert rest[j..] == s[j + 1..];
      }
      SettledSkip(rest, inBlock, k - 1);
      assert rest[k - 1..] == s[k..];
      MarksCons(s, inBlock, k);
    }
  }

  lemma MarksCons(s: string, thinking: bool, k: int)
    requires 0 < k <= |s|
    ensures Marks(s[..k], thinking) == [Mark(s[0], thinking)] + Marks(s[1..][..k - 1], thinking)
  {
  }

  lemma AbsentFurther(s: string, tag: string, k: int)
    requires 0 < k <= |s| && forall j :: 0 <= j < k ==> !OccursAt(s, tag, j)
    ensures !(tag <= s)
    ensures forall j :: 0 <= j < k - 1 ==> !OccursAt(s[1..], tag, j)
  {
    assert s[0..] == s && !OccursAt(s, tag, 0);
    forall j | 0 <= j < k - 1 ensures !OccursAt(s[1..], tag, j) {
      assert !OccursAt(s, tag, j + 1) && s[1..][j..] == s[j + 1..];
    }
  }

  /** The same for the reference, where only a complete tag counts. */
  lemma {:induction false} ScanSkip(s: string, inBlock: bool, k: int)
    requires 0 <= k <= |s|
    requires forall j :: 0 <= j < k ==> !OccursAt(s, TagFor(inBlock), j)
    ensures Scan(s, inBlock) == Marks(s[..k], inBlock) + Scan(s[k..], inBlock)
    ensures ScanEnd(s, inBlock) == ScanEnd(s[k..], inBlock)
    decreases k
  {
    hide TagFor;
    assert s[0..] == s;
    if k > 0 {
      AbsentFurther(s, TagFor(inBlock), k);
      hide OccursAt;
      var rest := s[1..];
      ScanSkip(rest, inBlock, k - 1);
      assert rest[k - 1..] == s[k..];
      MarksCons(s, inBlock, k);
    }
  }

  lemma ThroughTagAtStart(s: string, inBlock: bool)
    requires TagFor(inBlock) <= s
    ensures var rest := s[|TagFor(inBlock)|..];
            && Settled(s, inBlock) == Settled(rest, !inBlock)
            && Pending(s, inBlock) == Pending(rest, !inBlock)
            && PendingBlock(s, inBlock) == PendingBlock(rest, !inBlock)
            && Scan(s, inBlock) == Scan(rest, !inBlock)
            && ScanEnd(s, inBlock) == ScanEnd(rest, !inBlock)
  {
    hide TagFor;
  }

  /** Up to the first occurrence of the tag, and through it. */
  lemma {:induction false} SettledThroughTag(s: string, inBlock: bool, at: int)
    requires OccursAt(s, TagFor(inBlock), at)
    requires forall j :: j < at ==> !OccursAt(s, TagFor(inBlock), j)
    ensures at + |TagFor(inBlock)| <= |s|
    ensures var rest := s[at + |TagFor(inBlock)|..];
            && Settled(s, inBlock) == Marks(s[..at], inBlock) + Settled(rest, !inBlock)
            && Pending(s, inBlock) == Pending(rest, !inBlock)
            && PendingBlock(s, inBlock) == PendingBlock(rest, !inBlock)
            && Scan(s, inBlock) == Marks(s[..at], inBlock) + Scan(rest, !inBlock)
            && ScanEnd(s, inBlock) == ScanEnd(rest, !inBlock)
  {
    hide TagFor, Settled, Pending, PendingBlock, Scan, ScanEnd;
    var n := |TagFor(inBlock)|;
    forall j | 0 <= j < at ensures !(TagFor(inBlock) <= s[j..]) && !(s[j..] < TagFor(inBlock)) {
      assert !OccursAt(s, TagFor(inBlock), j);
    }
    SettledSkip(s, inBlock, at);
    ScanSkip(s, inBlock, at);
    ThroughTagAtStart(s[at..], inBlock);
    assert s[at..][n..] == s[at + n..];
  }

  // ---------------------------------------------------------------- facts about output

  lemma OneSegment(seg: Segment)
    ensures SegmentMarks([seg]) == Marks(seg.text, seg.thinking)
  {
    CollectOne(seg, (seg: Segment) => Marks(seg.text, seg.thinking));
  }

  lemma SegmentMarksConcat(a: seq<Segment>, b: seq<Segment>)
    ensures SegmentMarks(a + b) == SegmentMarks(a) + SegmentMarks(b)
  {
    CollectConcat(a, b, (seg: Segment) => Marks(seg.text, seg.thinking));
  }

  lemma OnlyConcat(a: seq<Mark>, b: seq<Mark>, thinking: bool)
    ensures Only(a + b, thinking) == Only(a, thinking) + Only(b, thinking)
  {
    CollectConcat(a, b, KindPart(thinking));
  }

  lemma {:induction false} OnlyMarks(s: string, kind: bool, thinking: bool)
    ensures Only(Marks(s, kind), thinking) == if kind == thinking then s else ""
  {
    if s != "" {
      assert Marks(s, kind)[1..] == Marks(s[1..], kind);
      OnlyMarks(s[1..], kind, thinking);
    }
  }

  // ---------------------------------------------------------------- the code

  function Emit(text: string, thinking: bool): (out: seq<Segment>)
    ensures SegmentMarks(out) == Marks(text, thinking)
    ensures forall seg :: seg in out ==> seg.text != ""
  {
    CollectOne(Segment(text, thinking), (seg: Segment) => Marks(seg.text, seg.thinking));
    if text != "" then [Segment(text, thinking)] else []
  }

  /** The last `k` characters of `s` are the first `k` of `tag`, and do not complete it. */
  predicate IsPartialTag(s: string, tag: string, k: int) {
    0 <= k < |tag| && HasSuffix(s, tag[..k])
  }

  /** How many trailing characters of `s` form a proper prefix of `tag`. */
  method PartialTagSuffixLen(s: string, tag: string) returns (k: nat)
    requires tag != ""
    ensures IsPartialTag(s, tag, k)
    ensures forall j :: j > k ==> !IsPartialTag(s, tag, j)
  {
    var maxLen := |tag| - 1;
    if maxLen > |s| { maxLen := |s|; }
    k := maxLen;
    while k > 0
      invariant 0 <= k <= maxLen
      invariant forall j :: j > k ==> !IsPartialTag(s, tag, j)
    {
      if HasSuffix(s, tag[..k]) { return; }
      k := k - 1;
    }
  }

  class ThinkingTagSplitter {
    var buf: string
    var inBlock: bool

    /** Between calls the buffer holds no more than an incomplete tag. */
    ghost predicate Valid()
      reads this
    {
      buf < TagFor(inBlock)
    }

    constructor ()
      ensures Valid() && buf == "" && !inBlock
    {
      buf, inBlock := "", false;
    }

    method Push(text: string) returns (out: seq<Segment>)
      requires Valid()
      modifies this
      ensures Valid()
      ensures SegmentMarks(out) == Settled(old(buf) + text, old(inBlock))
      ensures buf == Pending(old(buf) + text, old(inBlock))
      ensures inBlock == PendingBlock(old(buf) + text, old(inBlock))
      ensures forall seg :: seg in out ==> seg.text != ""
    {
      if text == "" {
        assert buf + text == buf;
        return [];
      }
      buf := buf + text;
      out := Drain(false);
      NothingSettled(buf, inBlock);
    }

    /** Releases the buffer at the end of the stream; an unterminated block is reasoning. */
    method Flush() returns (out: seq<Segment>)
      requires Valid()
      modifies this
      ensures Valid() && buf == "" && inBlock == old(inBlock)
      ensures SegmentMarks(out) == Marks(old(buf), old(inBlock))
      ensures forall seg :: seg in out ==> seg.text != ""
    {
      ScanTooShort(buf, inBlock);
      out := Drain(true);
    }

    method Drain(final: bool) returns (out: seq<Segment>)
      modifies this
      ensures final ==> SegmentMarks(out) == Scan(old(buf), old(inBlock))
      ensures final ==> buf == "" && inBlock == ScanEnd(old(buf), old(inBlock))
      ensures !final ==> Conserved(old(buf), old(inBlock), SegmentMarks(out), buf, inBlock) && Valid()
      ensures forall seg :: seg in out ==> seg.text != ""
    {
      hide Conserved, TagFor;
      out := [];
      ConservedAtStart(buf, inBlock);
      while true
        invariant Conserved(old(buf), old(inBlock), SegmentMarks(out), buf, inBlock)
        invariant forall seg :: seg in out ==> seg.text != ""
        decreases |buf|
      {
        var tag := TagFor(inBlock);
        var idx := Index(buf, tag);
        if idx != -1 {
          ConservedThroughTag(old(buf), old(inBlock), SegmentMarks(out), buf, inBlock, idx);
          SegmentMarksConcat(out, Emit(buf[..idx], inBlock));
          out := out + Emit(buf[..idx], inBlock);
          buf := buf[idx + |tag|..];
          inBlock := !inBlock;
          continue;
        }
        if final {
          ConservedAtEnd(old(buf), old(inBlock), SegmentMarks(out), buf, inBlock);
          SegmentMarksConcat(out, Emit(buf, inBlock));
          out := out + Emit(buf, inBlock);
          buf := "";
          return;
        }
        var partial := PartialTagSuffixLen(buf, tag);
        var keep := |buf| - partial;
        ConservedHoldingBack(old(buf), old(inBlock), SegmentMarks(out), buf, inBlock, partial);
        if keep > 0 {
          SegmentMarksConcat(out, Emit(buf[..keep], inBlock));
          out := out + Emit(buf[..keep], inBlock);
          buf := buf[keep..];
        }
        return;
      }
    }
  }

  /** `done` has been released and `s` is left of the text `s0`: together they mean what `s0` meant. */
  ghost predicate Conserved(s0: string, b0: bool, done: seq<Mark>, s: string, b: bool) {
    && Settled(s0, b0) == done + Settled(s, b)
    && Pending(s0, b0) == Pending(s, b)
    && PendingBlock(s0, b0) == PendingBlock(s, b)
    && Scan(s0, b0) == done + Scan(s, b)
    && ScanEnd(s0, b0) == ScanEnd(s, b)
  }

  lemma ConservedAtStart(s: string, b: bool)
    ensures Conserved(s, b, [], s, b)
  {
    hide TagFor, Settled, Pending, PendingBlock, Scan, ScanEnd;
  }

  lemma ConservedThroughTag(s0: string, b0: bool, done: seq<Mark>, s: string, b: bool, at: int)
    requires Conserved(s0, b0, done, s, b)
    requires OccursAt(s, TagFor(b), at)
    requires forall j :: j < at ==> !OccursAt(s, TagFor(b), j)
    ensures at + |TagFor(b)| <= |s|
    ensures Conserved(s0, b0, done + Marks(s[..at], b), s[at + |TagFor(b)|..], !b)
  {
    hide TagFor, Settled, Pending, PendingBlock, Scan, ScanEnd;
    SettledThroughTag(s, b, at);
  }

  lemma ConservedAtEnd(s0: string, b0: bool, done: seq<Mark>, s: string, b: bool)
    requires Conserved(s0, b0, done, s, b)
    requires forall j :: !OccursAt(s, TagFor(b), j)
    ensures Scan(s0, b0) == done + Marks(s, b) && ScanEnd(s0, b0) == b
  {
    hide TagFor, Settled, Pending, PendingBlock;
    ScanSkip(s, b, |s|);
    assert s[..|s|] == s;
  }

  /** With no tag in `s`, its first `k` characters may go once too few follow them to hide the start of one. */
  lemma ConservedReleasing(s0: string, b0: bool, done: seq<Mark>, s: string, b: bool, k: nat)
    requires Conserved(s0, b0, done, s, b)
    requires forall j :: !OccursAt(s, TagFor(b), j)
    requires k <= |s|
    requires forall j :: 0 <= j < k ==> !(s[j..] < TagFor(b))
    ensures Conserved(s0, b0, done + Marks(s[..k], b), s[k..], b)
  {
    hide TagFor, Settled, Pending, PendingBlock, Scan, ScanEnd;
    forall j | 0 <= j < k ensures !(TagFor(b) <= s[j..]) {
      assert !OccursAt(s, TagFor(b), j);
    }
    SettledSkip(s, b, k);
    ScanSkip(s, b, k);
  }

  /** Keeping only the longest partial tag at the end is enough. */
  lemma ConservedHoldingBack(s0: string, b0: bool, done: seq<Mark>, s: string, b: bool, partial: nat)
    requires Conserved(s0, b0, done, s, b)
    requires forall j :: !OccursAt(s, TagFor(b), j)
    requires IsPartialTag(s, TagFor(b), partial)
    requires forall j :: j > partial ==> !IsPartialTag(s, TagFor(b), j)
    ensures Conserved(s0, b0, done + Marks(s[..|s| - partial], b), s[|s| - partial..], b)
    ensures s[|s| - partial..] < TagFor(b)
    ensures partial == |s| ==> done + Marks(s[..|s| - partial], b) == done && s[|s| - partial..] == s
  {
    hide TagFor, Settled, Pending, PendingBlock, Scan, ScanEnd;
    forall j | 0 <= j < |s| - partial ensures !(s[j..] < TagFor(b)) {
      assert !IsPartialTag(s, TagFor(b), |s| - j);
    }
    ConservedReleasing(s0, b0, done, s, b, |s| - partial);
  }

  /** New text joins what is left: nothing already released depends on it. */
  lemma ConservedExtends(s0: string, b0: bool, done: seq<Mark>, s: string, b: bool, text: string)
    requires Conserved(s0, b0, done, s, b)
    ensures Conserved(s0 + text, b0, done, s + text, b)
  {
    hide TagFor, Settled, Pending, PendingBlock, Scan, ScanEnd;
    SettledExtends(s0, b0, text);
    SettledExtends(s, b, text);
    ConcatAssociative(done, Settled(s, b), Settled(Pending(s, b) + text, PendingBlock(s, b)));
    ScanIsSettledThenPending(s0 + text, b0);
    ScanIsSettledThenPending(s + text, b);
  }

  lemma ConservedThen(s0: string, b0: bool, done: seq<Mark>, s1: string, b1: bool, more: seq<Mark>, s2: string,
                      b2: bool)
    requires Conserved(s0, b0, done, s1, b1) && Conserved(s1, b1, more, s2, b2)
    ensures Conserved(s0, b0, done + more, s2, b2)
  {
    hide TagFor, Settled, Pending, PendingBlock, Scan, ScanEnd;
    ConcatAssociative(done, more, Settled(s2, b2));
    ConcatAssociative(done, more, Scan(s2, b2));
  }

  lemma SettledNothing()
    ensures Settled("", false) == [] && Pending("", false) == "" && PendingBlock("", false) == false
  {
  }

  lemma NothingSettled(s: string, b: bool)
    requires s < TagFor(b)
    ensures Settled(s, b) == [] && Pending(s, b) == s && PendingBlock(s, b) == b
  {
    hide TagFor;
  }

  // ---------------------------------------------------------------- whole streams

  /**
   However a stream is cut into chunks, pushing them and flushing once gives the reference
   split of the whole text: same text, same kinds, same order.
   */
  method SplitStream(chunks: seq<string>) returns (out: seq<Segment>, openAtEnd: bool)
    ensures SegmentMarks(out) == Scan(Join(chunks), false)
    ensures openAtEnd == ScanEnd(Join(chunks), false)
    ensures forall seg :: seg in out ==> seg.text != ""
  {
    var splitter := new ThinkingTagSplitter();
    out := [];
    StreamStarts(splitter);
    var i := 0;
    assert chunks[..0] == [];
    hide *;
    while i < |chunks|
      invariant 0 <= i <= |chunks| && fresh(splitter)
      invariant Streaming(splitter, Join(chunks[..i]), out)
    {
      JoinSnoc(chunks[..i], chunks[i]);
      assert chunks[..i + 1] == chunks[..i] + [chunks[i]];
      out := PushChunk(splitter, Join(chunks[..i]), chunks[i], out);
      i := i + 1;
    }
    assert chunks[..|chunks|] == chunks;
    out, openAtEnd := FlushStream(splitter, Join(chunks), out);
  }

  /** What was sent of a stream so far is what is settled of its text, and the splitter holds the rest. */
  ghost predicate Streaming(splitter: ThinkingTagSplitter, sofar: string, out: seq<Segment>)
    reads splitter
  {
    && splitter.Valid() && SegmentMarks(out) == Settled(sofar, false) && NoneEmpty(out)
    && splitter.buf == Pending(sofar, false) && splitter.inBlock == PendingBlock(sofar, false)
  }

  lemma StreamStarts(splitter: ThinkingTagSplitter)
    requires splitter.Valid() && splitter.buf == "" && !splitter.inBlock
    ensures Streaming(splitter, Join([]), [])
  {
    SettledNothing();
  }

  method PushChunk(splitter: ThinkingTagSplitter, ghost sofar: string, chunk: string, out: seq<Segment>)
      returns (out': seq<Segment>)
    requires Streaming(splitter, sofar, out)
    modifies splitter
    ensures Streaming(splitter, sofar + chunk, out')
  {
    hide TagFor, Settled, Pending, PendingBlock, SegmentMarks, NoneEmpty;
    SettledExtends(sofar, false, chunk);
    var more := splitter.Push(chunk);
    SegmentMarksConcat(out, more);
    NoneEmptyConcat(out, more);
    out' := out + more;
  }

  method FlushStream(splitter: ThinkingTagSplitter, ghost sofar: string, out: seq<Segment>)
      returns (out': seq<Segment>, openAtEnd: bool)
    requires Streaming(splitter, sofar, out)
    modifies splitter
    ensures SegmentMarks(out') == Scan(sofar, false) && openAtEnd == ScanEnd(sofar, false)
    ensures forall seg :: seg in out' ==> seg.text != ""
  {
    hide TagFor, Settled, Pending, PendingBlock, SegmentMarks, NoneEmpty, Scan, ScanEnd;
    ScanIsSettledThenPending(sofar, false);
    openAtEnd := splitter.inBlock;
    var rest := splitter.Flush();
    SegmentMarksConcat(out, rest);
    NoneEmptyConcat(out, rest);
    out' := out + rest;
    NoneEmptyMeans(out');
  }

  predicate NoneEmpty(segments: seq<Segment>) {
    forall seg :: seg in segments ==> seg.text != ""
  }

  lemma NoneEmptyConcat(a: seq<Segment>, b: seq<Segment>)
    requires forall seg :: seg in b ==> seg.text != ""
    ensures NoneEmpty(a) ==> NoneEmpty(a + b)
    ensures NoneEmpty([])
  {
  }

  lemma NoneEmptyMeans(segments: seq<Segment>)
    requires NoneEmpty(segments)
    ensures forall seg :: seg in segments ==> seg.text != ""
  {
  }
}
