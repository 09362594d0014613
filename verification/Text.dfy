/**
 Strings as the stream code sees them: searching, and joining chunks back together.
 */
module Text {

  datatype Option<T> = None | Some(value: T)

  /** `tag` occurs in `s` starting at index `i`. */
  predicate OccursAt(s: string, tag: string, i: int) {
    0 <= i <= |s| && tag <= s[i..]
  }

  predicate HasSuffix(s: string, suffix: string) {
    |suffix| <= |s| && s[|s| - |suffix|..] == suffix
  }

  /** Go's strings.Index: the first occurrence of `tag`, or -1. */
  method Index(s: string, tag: string) returns (at: int)
    ensures -1 <= at
    ensures at == -1 ==> forall j :: !OccursAt(s, tag, j)
    ensures at >= 0 ==> OccursAt(s, tag, at) && forall j :: j < at ==> !OccursAt(s, tag, j)
  {
    at := 0;
    while at + |tag| <= |s|
      invariant 0 <= at
      invariant forall j :: j < at ==> !OccursAt(s, tag, j)
    {
      if tag <= s[at..] { return; }
      at := at + 1;
    }
    at := -1;
  }

  /** Maps every element to a piece of output and joins the pieces in order. */
  function Collect<T, R>(xs: seq<T>, f: T -> seq<R>): seq<R> {
    if xs == [] then [] else f(xs[0]) + Collect(xs[1..], f)
  }

  lemma {:induction false} CollectConcat<T, R>(a: seq<T>, b: seq<T>, f: T -> seq<R>)
    ensures Collect(a + b, f) == Collect(a, f) + Collect(b, f)
  {
    if a == [] {
      assert a + b == b;
    } else {
      assert (a + b)[0] == a[0] && (a + b)[1..] == a[1..] + b;
      CollectConcat(a[1..], b, f);
      ConcatAssociative(f(a[0]), Collect(a[1..], f), Collect(b, f));
    }
  }

  lemma CollectOne<T, R>(x: T, f: T -> seq<R>)
    ensures Collect([x], f) == f(x)
  {
    assert Collect([x], f) == f(x) + Collect([x][1..], f);
  }

  lemma ConcatAssociative<R>(a: seq<R>, b: seq<R>, c: seq<R>)
    ensures (a + b) + c == a + (b + c)
  {
  }

  lemma SliceOfDrop<R>(s: seq<R>, start: nat, a: nat, b: nat)
    requires a <= b && start + b <= |s|
    ensures s[start..][a..b] == s[start + a..start + b]
  {
  }

  lemma DropOfDrop<R>(s: seq<R>, start: nat, a: nat)
    requires start + a <= |s|
    ensures s[start..][a..] == s[start + a..]
  {
  }

  function Join(chunks: seq<string>): string {
    if chunks == [] then "" else chunks[0] + Join(chunks[1..])
  }

  lemma {:induction false} JoinSnoc(chunks: seq<string>, last: string)
    ensures Join(chunks + [last]) == Join(chunks) + last
  {
    if chunks == [] {
      assert chunks + [last] == [last];
      assert Join([last]) == last + Join([]);
    } else {
      JoinSnoc(chunks[1..], last);
      assert (chunks + [last])[1..] == chunks[1..] + [last];
    }
  }
}
