/**
 Finding the text a continuation repeats from the end of the answer (proxy/auto_continue.go).
 A Go string is a sequence of bytes here; blanks are the ASCII ones.
 */
module Overlap {
  import opened Text

  const MAX_CONTINUATION_OVERLAP := 1024
  const MIN_CONTINUATION_OVERLAP := 16

  predicate IsBlank(c: char) {
    c == ' ' || '\t' <= c <= '\r'
  }

  function TrimLeft(s: string): string {
    if s != "" && IsBlank(s[0]) then TrimLeft(s[1..]) else s
  }

  function TrimRight(s: string): string {
    if s != "" && IsBlank(s[|s| - 1]) then TrimRight(s[..|s| - 1]) else s
  }

  /** Go's strings.TrimSpace. */
  function TrimSpace(s: string): string {
    TrimRight(TrimLeft(s))
  }

  lemma {:induction false} TrimLeftSnoc(s: string, c: char)
    ensures TrimLeft(s + [c]) == if TrimLeft(s) == "" then TrimLeft([c]) else TrimLeft(s) + [c]
  {
    if s == "" {
      assert s + [c] == [c];
    } else {
      assert (s + [c])[1..] == s[1..] + [c];
      if IsBlank(s[0]) { TrimLeftSnoc(s[1..], c); }
    }
  }

  lemma {:induction false} TrimRightIsShorter(s: string)
    ensures |TrimRight(s)| <= |s|
  {
    if s != "" { TrimRightIsShorter(s[..|s| - 1]); }
  }

  /** A longer start of a text never trims to less. */
  lemma {:induction false} TrimGrows(s: string, n: nat, m: nat)
    requires n <= m <= |s|
    ensures |TrimSpace(s[..n])| <= |TrimSpace(s[..m])|
    decreases m
  {
    if n < m {
      TrimGrows(s, n, m - 1);
      var left, c := TrimLeft(s[..m - 1]), s[m - 1];
      assert s[..m] == s[..m - 1] + [c];
      TrimLeftSnoc(s[..m - 1], c);
      TrimRightIsShorter(left);
      assert left != "" ==> (left + [c])[..|left + [c]| - 1] == left;
    }
  }

  function ToLower(s: string): string {
    seq(|s|, i requires 0 <= i < |s| => if 'A' <= s[i] <= 'Z' then s[i] - 'A' + 'a' else s[i])
  }

  /** The last part of the answer, the only part a continuation is compared with. */
  function OverlapTail(answer: string): string {
    if |answer| <= MAX_CONTINUATION_OVERLAP then answer else answer[|answer| - MAX_CONTINUATION_OVERLAP..]
  }

  /** The first `n` characters of `text` are the last `n` of `tail`. */
  predicate IsOverlap(tail: string, text: string, n: int) {
    0 < n <= |text| && HasSuffix(tail, text[..n])
  }

  /** The repeat would take a whole line that starts right after a line break. */
  predicate IsWholeLine(tail: string, n: nat) {
    HasSuffix(tail, "\n") && n < |tail| && tail[|tail| - n - 1] == '\n'
  }

  /** The longest overlap of at most `k` characters, 0 when there is none. */
  function LongestOverlap(tail: string, text: string, k: nat): (n: nat)
    ensures n <= k && (n > 0 ==> IsOverlap(tail, text, n))
    ensures forall m :: n < m <= k ==> !IsOverlap(tail, text, m)
  {
    if k == 0 || IsOverlap(tail, text, k) then k else LongestOverlap(tail, text, k - 1)
  }

  /**
   How much of a continuation repeats the answer: its longest overlap with the tail, unless
   that is too short to be more than chance or repeats whole lines.
   */
  function DropCount(tail: string, text: string): (n: nat)
    ensures n <= |text| && n <= |tail|
    ensures n > 0 ==> IsOverlap(tail, text, n) && forall m :: m > n ==> !IsOverlap(tail, text, m)
  {
    var n := LongestOverlap(tail, text, |tail|);
    if n == 0 || |TrimSpace(text[..n])| < MIN_CONTINUATION_OVERLAP || IsWholeLine(tail, n) then 0 else n
  }

  /** The longest overlap, long enough when trimmed and no whole-line repeat. */
  ghost predicate IsRepeat(tail: string, text: string, n: nat) {
    && IsOverlap(tail, text, n) && (forall m :: m > n ==> !IsOverlap(tail, text, m))
    && |TrimSpace(text[..n])| >= MIN_CONTINUATION_OVERLAP && !IsWholeLine(tail, n)
  }

  /** Exactly when something is dropped. */
  lemma DropCountMeaning(tail: string, text: string, n: nat)
    requires n > 0
    ensures DropCount(tail, text) == n <==> IsRepeat(tail, text, n)
  {
    hide TrimSpace;
    assert forall m :: m > |tail| ==> !IsOverlap(tail, text, m);
  }

  // ---------------------------------------------------------------- what is dropped, said of the whole answer

  /** Trimming takes the blanks at both ends and nothing else. */
  lemma {:induction false} TrimSpaceIsMiddle(s: string) returns (i: nat, j: nat)
    ensures i <= j <= |s| && TrimSpace(s) == s[i..j]
    ensures forall k :: 0 <= k < i || j <= k < |s| ==> IsBlank(s[k])
    ensures i < j ==> !IsBlank(s[i]) && !IsBlank(s[j - 1])
  {
    i := LeftBlanks(s);
    var m := RightBlanks(s[i..]);
    j := i + m;
    assert s[i..][..m] == s[i..j];
    assert forall k :: j <= k < |s| ==> s[k] == s[i..][k - i];
    assert m > 0 ==> s[i..][m - 1] == s[j - 1] && s[i..][0] == s[i];
  }

  lemma {:induction false} LeftBlanks(s: string) returns (i: nat)
    ensures i <= |s| && TrimLeft(s) == s[i..]
    ensures forall k :: 0 <= k < i ==> IsBlank(s[k])
    ensures i < |s| ==> !IsBlank(s[i])
  {
    i := 0;
    if s != "" && IsBlank(s[0]) {
      var rest := LeftBlanks(s[1..]);
      i := rest + 1;
      assert forall k :: 1 <= k < i ==> s[k] == s[1..][k - 1];
      assert s[1..][rest..] == s[i..];
    }
  }

  lemma {:induction false} RightBlanks(s: string) returns (j: nat)
    ensures j <= |s| && TrimRight(s) == s[..j]
    ensures forall k :: j <= k < |s| ==> IsBlank(s[k])
    ensures j > 0 ==> !IsBlank(s[j - 1])
  {
    j := |s|;
    if s != "" && IsBlank(s[|s| - 1]) {
      j := RightBlanks(s[..|s| - 1]);
    }
  }

  /** The first `n` characters of the text are the last `n` of the answer, and no more are compared than the bound. */
  predicate EndsWithStart(answer: string, text: string, n: nat) {
    n <= |text| && n <= MAX_CONTINUATION_OVERLAP && HasSuffix(answer, text[..n])
  }

  /** The answer stops on a line break and repeating `n` characters would take a whole line of what is compared. */
  predicate TakesWholeLine(answer: string, n: nat) {
    && n < |answer| && n < MAX_CONTINUATION_OVERLAP
    && answer[|answer| - 1] == '\n' && answer[|answer| - n - 1] == '\n'
  }

  /**
   Of a text that follows an answer, exactly its longest start is dropped that the answer ends with, of at
   most 1024 characters, and nothing if that trims to fewer than sixteen or is a repeat of whole lines.
   */
  lemma DroppedIsLongestRepeat(answer: string, text: string) returns (n: nat)
    ensures EndsWithStart(answer, text, n) && forall m :: m > n ==> !EndsWithStart(answer, text, m)
    ensures DropCount(OverlapTail(answer), text)
              == if |TrimSpace(text[..n])| < MIN_CONTINUATION_OVERLAP || TakesWholeLine(answer, n) then 0 else n
  {
    hide TrimSpace, EndsWithStart, TakesWholeLine, IsWholeLine, IsOverlap, OverlapTail;
    var tail := OverlapTail(answer);
    n := LongestOverlap(tail, text, |tail|);
    forall m: nat | m > |tail| ensures !IsOverlap(tail, text, m) {
      LongerIsNoOverlap(tail, text, m);
    }
    forall m: nat | m > 0 ensures EndsWithStart(answer, text, m) <==> IsOverlap(tail, text, m) {
      TailEndsAlike(answer, text, m);
    }
    NothingEndsAll(answer, text);
    NothingIsTooShort();
    LinesEndAlike(answer, n);
  }

  lemma LongerIsNoOverlap(tail: string, text: string, m: nat)
    requires m > |tail|
    ensures !IsOverlap(tail, text, m)
  {
  }

  lemma NothingEndsAll(answer: string, text: string)
    ensures text[..0] == "" && EndsWithStart(answer, text, 0)
  {
  }

  lemma LinesEndAlike(answer: string, n: nat)
    ensures IsWholeLine(OverlapTail(answer), n) <==> TakesWholeLine(answer, n)
  {
    var tail := OverlapTail(answer);
    EndsWithBreak(tail);
    TailIndex(answer, 1);
    TailIndex(answer, n + 1);
    hide HasSuffix, OverlapTail;
  }

  lemma EndsWithBreak(s: string)
    ensures HasSuffix(s, "\n") <==> s != "" && s[|s| - 1] == '\n'
  {
    if s != "" { assert s[|s| - 1..] == [s[|s| - 1]]; }
  }

  lemma TailIndex(answer: string, k: nat)
    ensures var tail := OverlapTail(answer);
            && |tail| == (if |answer| < MAX_CONTINUATION_OVERLAP then |answer| else MAX_CONTINUATION_OVERLAP)
            && (0 < k <= |tail| ==> tail[|tail| - k] == answer[|answer| - k])
  {
  }

  lemma TailEndsAlike(answer: string, text: string, m: nat)
    requires m > 0
    ensures EndsWithStart(answer, text, m) <==> IsOverlap(OverlapTail(answer), text, m)
  {
    var tail := OverlapTail(answer);
    if m <= |text| && m <= |tail| {
      assert tail[|tail| - m..] == answer[|answer| - m..];
    }
  }

  // ---------------------------------------------------------------- what the sixteen characters are

  function NonBlank(s: string): nat {
    if s == "" then 0 else NonBlank(s[..|s| - 1]) + (if IsBlank(s[|s| - 1]) then 0 else 1)
  }

  /** The documented floor: at least sixteen characters of what is dropped are not blank. */
  predicate MeetsFloor(text: string, n: nat)
    requires n <= |text|
  {
    NonBlank(text[..n]) >= MIN_CONTINUATION_OVERLAP
  }

  /** A start of the text that the code's own test, which trims only the ends, takes for long enough. */
  predicate PassesTest(text: string, n: nat)
    requires n <= |text|
  {
    |TrimSpace(text[..n])| >= MIN_CONTINUATION_OVERLAP
  }

  /**
   What is dropped meets the documented floor, whatever the answer before it, exactly for the texts
   of which every start that passes the code's test has sixteen characters that are not blank.
   */
  lemma FloorIsMetExactlyWhen(text: string)
    ensures (forall tail :: DropCount(tail, text) > 0 ==> MeetsFloor(text, DropCount(tail, text)))
            <==> (forall n :: 0 <= n <= |text| && PassesTest(text, n) ==> MeetsFloor(text, n))
  {
    hide NonBlank, TrimSpace;
    forall tail ensures DropCount(tail, text) > 0 ==> PassesTest(text, DropCount(tail, text)) { }
    forall n | 0 <= n <= |text| && PassesTest(text, n) ensures DropCount(text[..n], text) == n > 0 {
      NothingIsTooShort();
      assert text[..0] == "";
      WholeTailIsDropped(text, n);
    }
  }

  lemma NothingIsTooShort()
    ensures |TrimSpace("")| == 0
  {
  }

  /**
   A tail that is all repeated is dropped whole, if long enough: there is no character before it to make it
   a whole line.
   */
  lemma WholeTailIsDropped(text: string, n: nat)
    requires 0 < n <= |text| && PassesTest(text, n)
    ensures DropCount(text[..n], text) == n
  {
    hide TrimSpace;
    assert IsOverlap(text[..n], text, n);
    DropCountMeaning(text[..n], text, n);
  }

  /** Two letters with fourteen blanks between them are dropped, although only two of the sixteen are not blank. */
  lemma InnerBlanksCount()
    ensures var s := "a              b"; DropCount(s, s) == 16 && NonBlank(s) == 2
  {
    var s := "a              b";
    assert TrimLeft(s) == s && TrimRight(s) == s;
    assert s[..16] == s;
    WholeTailIsDropped(s, 16);
    var blanks := s[..15];
    BlanksDoNotCount("a", 14);
    assert blanks == "a" + seq(14, _ => ' ');
    assert s[..|s| - 1] == blanks && NonBlank("a") == 1 + NonBlank("");
  }

  lemma {:induction false} BlanksDoNotCount(s: string, n: nat)
    ensures NonBlank(s + seq(n, _ => ' ')) == NonBlank(s)
  {
    var all := s + seq(n, _ => ' ');
    if n == 0 {
      assert all == s;
    } else {
      BlanksDoNotCount(s, n - 1);
      assert all[..|all| - 1] == s + seq(n - 1, _ => ' ');
    }
  }

  /**
   The descending search stops early at the first start that is too short, and loses nothing by it: it
   finds the repeat if there is one, and 0 otherwise.
   */
  method RepeatedOverlap(tail: string, text: string) returns (n: nat)
    ensures n == DropCount(tail, text)
    ensures forall k: nat :: k > 0 ==> (n == k <==> IsRepeat(tail, text, k))
  {
    forall k: nat | k > 0 ensures DropCount(tail, text) == k <==> IsRepeat(tail, text, k) {
      DropCountMeaning(tail, text, k);
    }
    hide IsRepeat;
    var lineCut := HasSuffix(tail, "\n");
    n := if |tail| < |text| then |tail| else |text|;
    while n > 0
      invariant 0 <= n <= |tail| && n <= |text|
      invariant forall m :: m > n ==> !IsOverlap(tail, text, m)
    {
      if |TrimSpace(text[..n])| < MIN_CONTINUATION_OVERLAP {
        var longest := LongestOverlap(tail, text, |tail|);
        TrimGrows(text, if longest <= n then longest else 0, n);
        return 0;
      }
      if HasSuffix(tail, text[..n]) {
        assert IsOverlap(tail, text, n);
        if lineCut && n < |tail| && tail[|tail| - n - 1] == '\n' { return 0; }
        return n;
      }
      n := n - 1;
    }
  }

  /** Once the held text is as long as the tail, more text cannot change what is dropped. */
  lemma DropCountIsSettled(tail: string, held: string, more: string)
    requires |held| >= |tail|
    ensures DropCount(tail, held + more) == DropCount(tail, held)
  {
    forall n | 0 < n <= |tail|
      ensures (held + more)[..n] == held[..n]
      ensures IsOverlap(tail, held + more, n) == IsOverlap(tail, held, n)
    {
      assert (held + more)[..n] == held[..n];
    }
  }
}
