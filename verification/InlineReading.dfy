/**
 How the inline text buffers (proxy/handler.go) read: which pieces of the text held and come in they
 let go, in what order, and what they go on holding.  The margins are those of the code, so that this
 says to the character what has been sent at any time.
 */
module InlineReading {
  import opened Text
  import opened ThinkingSplit

  const MARGIN := 15

  /** How much may be held without a tag in it before some is let go. */
  function Limit(block: bool): nat {
    if block then 20 else 50
  }

  /** How much of n characters without a tag is let go while more may come. */
  function SafeLength(n: nat, block: bool): (k: nat)
    ensures k <= n && n - k <= Limit(block)
    ensures k == 0 || n - k == MARGIN
  {
    if n > Limit(block) then n - MARGIN else 0
  }

  /**
   Text goes on after whatever came between; a piece of answer, or of reasoning in a block; a block opens,
   closes or is ended by a flush; or a reasoning event.
   */
  datatype Raw = Resume | Piece(text: string, thinking: bool) | Opening | Closing | Ending | Native(text: string)

  /** What is let go, and what is then held and whether it is inside a block. */
  datatype Reading = Reading(raw: seq<Raw>, rest: string, block: bool)

  /** Where the tag first occurs, or -1. */
  function FirstAt(s: string, tag: string): (at: int)
    ensures -1 <= at && (at >= 0 ==> at + |tag| <= |s|)
  {
    if tag <= s then 0
    else if s == "" then -1
    else
      var at := FirstAt(s[1..], tag);
      if at < 0 then -1 else at + 1
  }

  lemma {:induction false} FirstAtIs(s: string, tag: string, at: int)
    requires at == -1 ==> forall j :: !OccursAt(s, tag, j)
    requires at >= 0 ==> OccursAt(s, tag, at) && forall j :: j < at ==> !OccursAt(s, tag, j)
    requires at >= -1
    ensures FirstAt(s, tag) == at
  {
    assert s[0..] == s;
    if tag <= s {
      assert OccursAt(s, tag, 0);
    } else if s != "" {
      var next := if at < 0 then -1 else at - 1;
      assert at >= 0 ==> s[1..][next..] == s[at..];
      forall j | OccursAt(s[1..], tag, j) ensures OccursAt(s, tag, j + 1) {
        assert s[1..][j..] == s[j + 1..];
      }
      assert at != 0;
      FirstAtIs(s[1..], tag, next);
    }
  }

  /** Reads `s` from inside or outside a block; `force` lets everything go and ends the block. */
  function Reads(s: string, block: bool, force: bool): Reading
    decreases |s|
  {
    var at := FirstAt(s, TagFor(block));
    if at >= 0 then
      var r := Reads(s[at + |TagFor(block)|..], !block, force);
      Reading([Piece(s[..at], block), if block then Closing else Opening] + r.raw, r.rest, r.block)
    else if force then Reading([Piece(s, block)] + (if block then [Ending] else []), "", false)
    else
      var k := SafeLength(|s|, block);
      Reading([Piece(s[..k], block)], s[k..], block)
  }

  /** Never more than 50 characters are held back, in a block never more than 20, and nothing after a flush. */
  lemma {:induction false} HeldIsShort(s: string, block: bool, force: bool)
    ensures var r := Reads(s, block, force);
            |r.rest| <= (if force then 0 else Limit(r.block)) && (force ==> !r.block)
    decreases |s|
  {
    hide TagFor;
    var at := FirstAt(s, TagFor(block));
    if at >= 0 { HeldIsShort(s[at + |TagFor(block)|..], !block, force); }
  }
}
