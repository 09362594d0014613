/**
 What a client was told, character by character: visible text, reasoning, and calls in their place.
 Both stream emitters are compared with their input in these terms.
 */
module Speech {

  datatype Said<Call> = Visible(ch: char) | Thought(ch: char) | Called(call: Call)

  function Chars<Call>(text: string, thought: bool): (s: seq<Said<Call>>)
    ensures |s| == |text|
    ensures forall i :: 0 <= i < |text| ==> s[i] == if thought then Thought(text[i]) else Visible(text[i])
  {
    seq(|text|, i requires 0 <= i < |text| => if thought then Thought(text[i]) else Visible(text[i]))
  }

  lemma CharsConcat<Call>(a: string, b: string, thought: bool)
    ensures Chars<Call>(a + b, thought) == Chars<Call>(a, thought) + Chars<Call>(b, thought)
    ensures Chars<Call>("", thought) == []
  {
  }

  /** The visible text, or the reasoning, of all that was said. */
  function SaidText<Call>(said: seq<Said<Call>>, thought: bool): string {
    if said == [] then ""
    else
      SaidText(said[..|said| - 1], thought) +
      match said[|said| - 1]
      case Visible(ch) => if thought then "" else [ch]
      case Thought(ch) => if thought then [ch] else ""
      case Called(_) => ""
  }

  lemma {:induction false} SaidTextConcat<Call>(a: seq<Said<Call>>, b: seq<Said<Call>>, thought: bool)
    ensures SaidText(a + b, thought) == SaidText(a, thought) + SaidText(b, thought)
  {
    if b == [] {
      assert a + b == a;
    } else {
      SaidTextConcat(a, b[..|b| - 1], thought);
      assert (a + b)[..|a + b| - 1] == a + b[..|b| - 1];
    }
  }

  lemma {:induction false} SaidTextOfChars<Call>(text: string, kind: bool, thought: bool)
    ensures SaidText<Call>(Chars(text, kind), thought) == if kind == thought then text else ""
  {
    if text != "" {
      SaidTextOfChars<Call>(text[..|text| - 1], kind, thought);
      assert Chars<Call>(text, kind)[..|text| - 1] == Chars<Call>(text[..|text| - 1], kind);
    }
  }
}
