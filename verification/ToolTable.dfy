/**
 The table of tool calls in flight (proxy/kiro.go, pendingToolUses): argument fragments of several
 calls arrive interleaved, some without an id, and are put together again.

 `Table`, `Step` and `Run` specify the table as a value; the class keeps it in place.
 JSON decoding and the generated ids are parameters.
 */
module ToolTable {
  import opened Text
  import opened Overlap

  datatype ToolState = ToolState(id: string, name: string, input: string, generated: bool)

  /** The input field of a fragment: absent, a piece of JSON text, or a whole object. */
  datatype Input = NoInput | TextInput(text: string) | ObjectInput(json: string)

  /** `spare` is the id that would be generated while this fragment is handled. */
  datatype Fragment = Fragment(id: string, name: string, input: Input, stop: bool, spare: string)

  datatype Call = Call(id: string, name: string, args: string)

  /** JSON decoding of non-blank arguments; None when they are not a JSON object. */
  type Decoder = string -> Option<string>

  const NO_ARGS := "{}"

  // ---------------------------------------------------------------- the table as a value

  datatype Table = Table(byId: map<string, ToolState>, order: seq<string>, lastId: string) {
    function Get(id: string): Option<ToolState> {
      if id in byId then Some(byId[id]) else None
    }

    function Add(s: ToolState): Table {
      Table(byId[s.id := s], order + [s.id], s.id)
    }

    /** A generated id gives way to the real one at the same place in the order. */
    function Rekey(s: ToolState, newId: string): Table {
      Table((byId - {s.id})[newId := s.(id := newId, generated := false)],
            Replace(order, s.id, newId),
            if lastId == s.id then newId else lastId)
    }

    function Remove(id: string): Table {
      Table(byId - {id}, Without(order, id), if lastId == id then "" else lastId)
    }

    /** `order` lists exactly the pending ids, each once; the last id is pending. */
    ghost predicate Valid() {
      && Distinct(order)
      && (forall id :: id in order <==> id in byId)
      && (forall id :: id in byId ==> byId[id].id == id && id != "" && byId[id].name != "")
      && (lastId != "" ==> lastId in byId)
    }
  }

  ghost predicate Distinct(order: seq<string>) {
    forall i, j :: 0 <= i < j < |order| ==> order[i] != order[j]
  }

  const EMPTY_TABLE := Table(map[], [], "")

  function Replace(order: seq<string>, id: string, newId: string): seq<string> {
    if order == [] then []
    else if order[0] == id then [newId] + order[1..]
    else [order[0]] + Replace(order[1..], id, newId)
  }

  function Without(order: seq<string>, id: string): seq<string> {
    if order == [] then []
    else if order[0] == id then order[1..]
    else [order[0]] + Without(order[1..], id)
  }

  /** What finishing a call does: nothing, emit it, or refuse its arguments. */
  datatype Finished = Nothing | Emitted(call: Call) | Incomplete

  function Finish(s: ToolState, decode: Decoder): Finished {
    if s.name == "" then Nothing
    else
      var raw := TrimSpace(s.input);
      if raw == "" then Emitted(Call(s.id, s.name, NO_ARGS))
      else
        match decode(raw)
        case None => Incomplete
        case Some(args) => Emitted(Call(s.id, s.name, args))
  }

  function Calls(f: Finished): seq<Call> {
    if f.Emitted? then [f.call] else []
  }

  function TakeInput(s: ToolState, input: Input): ToolState {
    match input
    case NoInput => s
    case TextInput(text) => s.(input := s.input + text)
    case ObjectInput(json) => s.(input := json)
  }

  /** A table after some fragments, the calls emitted on the way, and whether one failed. */
  datatype Outcome = Outcome(table: Table, calls: seq<Call>, failed: bool)

  /** The end of handling a fragment, once it is known which call it belongs to. */
  function Absorb(t: Table, id: string, f: Fragment, calls: seq<Call>, decode: Decoder): Outcome
    requires id in t.byId
  {
    var s := TakeInput(t.byId[id], f.input);
    var t' := t.(byId := t.byId[id := s]);
    if !f.stop then Outcome(t', calls, false)
    else
      var done := Finish(s, decode);
      if done.Incomplete? then Outcome(t', calls, true) else Outcome(t'.Remove(id), calls + Calls(done), false)
  }

  /** The entry a fragment with an id continues: its own, or a nameless opening it can adopt. */
  predicate Adopts(t: Table, f: Fragment) {
    && f.id !in t.byId && t.lastId != "" && t.lastId in t.byId
    && t.byId[t.lastId].generated && (f.name == "" || t.byId[t.lastId].name == f.name)
  }

  function Step(t: Table, f: Fragment, decode: Decoder): Outcome {
    if f.id != "" then
      if f.id in t.byId then Absorb(t.(lastId := f.id), f.id, f, [], decode)
      else if Adopts(t, f) then Absorb(t.Rekey(t.byId[t.lastId], f.id).(lastId := f.id), f.id, f, [], decode)
      else if f.name == "" then Outcome(t, [], false)
      else Absorb(t.Add(ToolState(f.id, f.name, "", false)), f.id, f, [], decode)
    else if t.lastId != "" && t.lastId in t.byId then
      var s := t.byId[t.lastId];
      if f.name == "" || s.name == f.name then Absorb(t, t.lastId, f, [], decode)
      else
        var done := Finish(s, decode);
        if done.Incomplete? then Outcome(t, [], true)
        else Absorb(t.Remove(t.lastId).Add(ToolState(f.spare, f.name, "", true)), f.spare, f, Calls(done), decode)
    else if f.name != "" then
      Absorb(t.Add(ToolState(f.spare, f.name, "", true)), f.spare, f, [], decode)
    else Outcome(t, [], false)
  }

  /** Finishing what is still pending, in the order given, up to the first that fails. */
  function Flush(byId: map<string, ToolState>, order: seq<string>, decode: Decoder): Outcome {
    if order == [] then Outcome(EMPTY_TABLE, [], false)
    else
      var done := if order[0] in byId then Finish(byId[order[0]], decode) else Nothing;
      if done.Incomplete? then Outcome(EMPTY_TABLE, [], true)
      else
        var rest := Flush(byId, order[1..], decode);
        rest.(calls := Calls(done) + rest.calls)
  }

  function Steps(t: Table, fs: seq<Fragment>, decode: Decoder): Outcome
    decreases |fs|
  {
    if fs == [] then Outcome(t, [], false)
    else
      var first := Step(t, fs[0], decode);
      if first.failed then first
      else
        var rest := Steps(first.table, fs[1..], decode);
        rest.(calls := first.calls + rest.calls)
  }

  /** A whole stream: every fragment, then the calls that never got their stop. */
  function Run(t: Table, fs: seq<Fragment>, decode: Decoder): Outcome {
    var steps := Steps(t, fs, decode);
    if steps.failed then steps
    else
      var rest := Flush(steps.table.byId, steps.table.order, decode);
      rest.(calls := steps.calls + rest.calls)
  }

  // ---------------------------------------------------------------- the order of arrival

  lemma {:induction false} ReplaceIsUpdate(order: seq<string>, id: string, newId: string, i: nat)
    requires i < |order| && order[i] == id && forall j :: 0 <= j < i ==> order[j] != id
    ensures Replace(order, id, newId) == order[i := newId]
  {
    if order[0] != id {
      ReplaceIsUpdate(order[1..], id, newId, i - 1);
    }
  }

  lemma {:induction false} WithoutIsCut(order: seq<string>, id: string, i: nat)
    requires i < |order| && order[i] == id && forall j :: 0 <= j < i ==> order[j] != id
    ensures Without(order, id) == order[..i] + order[i + 1..]
  {
    if order[0] != id {
      WithoutIsCut(order[1..], id, i - 1);
    }
  }

  lemma {:induction false} AbsentIsKept(order: seq<string>, id: string, newId: string)
    requires forall j :: 0 <= j < |order| ==> order[j] != id
    ensures Without(order, id) == order && Replace(order, id, newId) == order
  {
    if order != [] {
      AbsentIsKept(order[1..], id, newId);
    }
  }

  lemma {:induction false} WithoutOne(order: seq<string>, id: string)
    requires Distinct(order)
    ensures Distinct(Without(order, id))
    ensures forall x :: x in Without(order, id) <==> x in order && x != id
  {
    if order != [] {
      var first, rest := order[0], order[1..];
      assert forall x :: x in order <==> x == first || x in rest;
      assert first !in rest;
      WithoutOne(rest, id);
      if first != id {
        var others := Without(rest, id);
        assert forall x :: x in [first] + others <==> x == first || x in others;
      }
    }
  }

  /** A generated id's place in the arrival order is kept by the id that replaces it. */
  lemma RekeyKeepsPosition(t: Table, s: ToolState, newId: string, i: nat)
    requires t.Valid() && s.id in t.byId && t.byId[s.id] == s && newId !in t.byId && newId != ""
    requires i < |t.order| && t.order[i] == s.id
    ensures t.Rekey(s, newId).order == t.order[i := newId]
    ensures t.Rekey(s, newId).Valid()
  {
    assert t.order[i] in t.order;
    UpdatedOrder(t.order, i, newId);
    ReplaceIsUpdate(t.order, s.id, newId, i);
    hide Distinct, Replace;
    var t' := t.Rekey(s, newId);
    assert forall id :: id in t'.byId <==> id == newId || (id in t.byId && id != s.id);
  }

  /** Putting a new id in the place of another. */
  lemma UpdatedOrder(order: seq<string>, i: nat, newId: string)
    requires i < |order| && Distinct(order) && newId !in order
    ensures Distinct(order[i := newId])
    ensures forall id :: id in order[i := newId] <==> id == newId || (id in order && id != order[i])
  {
    var updated := order[i := newId];
    forall id | id in order && id != order[i] ensures id in updated {
      var j :| 0 <= j < |order| && order[j] == id;
      assert updated[j] == id;
    }
    assert updated[i] == newId;
  }

  lemma RemoveKeepsValid(t: Table, id: string)
    requires t.Valid() && id in t.byId
    ensures t.Remove(id).Valid()
  {
    WithoutOne(t.order, id);
  }

  lemma AddKeepsValid(t: Table, s: ToolState)
    requires t.Valid() && s.id !in t.byId && s.id != "" && s.name != ""
    ensures t.Add(s).Valid()
  {
    var t' := t.Add(s);
    assert forall j :: 0 <= j < |t.order| ==> t'.order[j] == t.order[j];
    assert forall j :: 0 <= j < |t.order| ==> t.order[j] in t.order;
  }

  lemma AbsorbKeepsValid(t: Table, id: string, f: Fragment, calls: seq<Call>, decode: Decoder)
    requires t.Valid() && id in t.byId
    ensures Absorb(t, id, f, calls, decode).table.Valid()
  {
    var t' := t.(byId := t.byId[id := TakeInput(t.byId[id], f.input)]);
    assert t'.Valid();
    RemoveKeepsValid(t', id);
  }

  /** In every run the order is a listing of exactly the pending ids without repeats. */
  lemma {:induction false} StepKeepsValid(t: Table, f: Fragment, decode: Decoder)
    requires t.Valid()
    requires f.id == "" ==> f.spare != "" && f.spare !in t.byId
    ensures Step(t, f, decode).table.Valid()
  {
    if f.id != "" {
      if f.id in t.byId {
        AbsorbKeepsValid(t.(lastId := f.id), f.id, f, [], decode);
      } else if Adopts(t, f) {
        var i :| 0 <= i < |t.order| && t.order[i] == t.lastId;
        RekeyKeepsPosition(t, t.byId[t.lastId], f.id, i);
        AbsorbKeepsValid(t.Rekey(t.byId[t.lastId], f.id).(lastId := f.id), f.id, f, [], decode);
      } else if f.name != "" {
        AddKeepsValid(t, ToolState(f.id, f.name, "", false));
        AbsorbKeepsValid(t.Add(ToolState(f.id, f.name, "", false)), f.id, f, [], decode);
      }
    } else if t.lastId != "" {
      var s := t.byId[t.lastId];
      if f.name == "" || s.name == f.name {
        AbsorbKeepsValid(t, t.lastId, f, [], decode);
      } else {
        RemoveKeepsValid(t, t.lastId);
        AddKeepsValid(t.Remove(t.lastId), ToolState(f.spare, f.name, "", true));
        AbsorbKeepsValid(t.Remove(t.lastId).Add(ToolState(f.spare, f.name, "", true)), f.spare, f,
                         Calls(Finish(s, decode)), decode);
      }
    } else if f.name != "" {
      AddKeepsValid(t, ToolState(f.spare, f.name, "", true));
      AbsorbKeepsValid(t.Add(ToolState(f.spare, f.name, "", true)), f.spare, f, [], decode);
    }
  }

  // ---------------------------------------------------------------- one call on its own

  /** A call seen alone: its entry, if pending, the calls it emitted, and whether it failed. */
  datatype Solo = Solo(state: Option<ToolState>, calls: seq<Call>, failed: bool)

  function SoloStep(st: Option<ToolState>, f: Fragment, decode: Decoder): Solo {
    if st.None? && f.name == "" then Solo(None, [], false)
    else
      var s := TakeInput(if st.None? then ToolState(f.id, f.name, "", false) else st.value, f.input);
      if !f.stop then Solo(Some(s), [], false)
      else
        var done := Finish(s, decode);
        if done.Incomplete? then Solo(Some(s), [], true) else Solo(None, Calls(done), false)
  }

  function SoloSteps(st: Option<ToolState>, fs: seq<Fragment>, decode: Decoder): Solo
    decreases |fs|
  {
    if fs == [] then Solo(st, [], false)
    else
      var first := SoloStep(st, fs[0], decode);
      if first.failed then first
      else
        var rest := SoloSteps(first.state, fs[1..], decode);
        rest.(calls := first.calls + rest.calls)
  }

  function SoloEnd(st: Option<ToolState>, decode: Decoder): Finished {
    if st.None? then Nothing else Finish(st.value, decode)
  }

  /** The fragments and the calls of one id. */
  function Mine(fs: seq<Fragment>, id: string): seq<Fragment> {
    Collect(fs, (f: Fragment) => if f.id == id then [f] else [])
  }

  function CallsOf(calls: seq<Call>, id: string): seq<Call> {
    Collect(calls, (c: Call) => if c.id == id then [c] else [])
  }

  lemma CallsOfConcat(a: seq<Call>, b: seq<Call>, id: string)
    ensures CallsOf(a + b, id) == CallsOf(a, id) + CallsOf(b, id)
  {
    CollectConcat(a, b, (c: Call) => if c.id == id then [c] else []);
  }

  lemma CallsOfFinished(done: Finished, id: string)
    ensures CallsOf(Calls(done), id) == if done.Emitted? && done.call.id != id then [] else Calls(done)
  {
    if done.Emitted? { CollectOne(done.call, (c: Call) => if c.id == id then [c] else []); }
  }

  /** Every fragment carries an id, and nothing pending has a generated one. */
  ghost predicate AllNamed(t: Table, fs: seq<Fragment>) {
    && t.Valid()
    && (forall id :: id in t.byId ==> !t.byId[id].generated)
    && (forall f :: f in fs ==> f.id != "")
  }

  /** Taking in a fragment touches only the entry it belongs to. */
  lemma AbsorbIsSolo(t: Table, f: Fragment, decode: Decoder)
    requires AllNamed(t, [f]) && f.id in t.byId
    ensures var o, solo := Absorb(t, f.id, f, [], decode), SoloStep(Some(t.byId[f.id]), f, decode);
            && AllNamed(o.table, [])
            && o.table.Get(f.id) == solo.state && o.calls == solo.calls && o.failed == solo.failed
            && (forall id :: id != f.id ==> o.table.Get(id) == t.Get(id))
  {
    hide Finish;
    AbsorbKeepsValid(t, f.id, f, [], decode);
  }

  /** A fragment acts on its own call as if it were alone, and on no other. */
  lemma {:induction false} StepIsSolo(t: Table, f: Fragment, decode: Decoder)
    requires AllNamed(t, [f])
    ensures var o, solo := Step(t, f, decode), SoloStep(t.Get(f.id), f, decode);
            && AllNamed(o.table, [])
            && o.table.Get(f.id) == solo.state && o.calls == solo.calls && o.failed == solo.failed
            && (forall id :: id != f.id ==> o.table.Get(id) == t.Get(id))
            && CallsOf(o.calls, f.id) == o.calls
            && (forall id :: id != f.id ==> CallsOf(o.calls, id) == [])
  {
    hide Absorb, CallsOf, Finish, SoloStep;
    assert f in [f];
    var solo := SoloStep(t.Get(f.id), f, decode);
    if f.id in t.byId {
      assert t.(lastId := f.id).Valid();
      AbsorbIsSolo(t.(lastId := f.id), f, decode);
    } else if f.name != "" {
      var s := ToolState(f.id, f.name, "", false);
      AddKeepsValid(t, s);
      AbsorbIsSolo(t.Add(s), f, decode);
      NewIsSolo(f, decode);
    } else {
      NamelessIsIgnored(f, decode);
    }
    SoloCallsAreMine(t.Get(f.id), f, decode);
  }

  lemma NewIsSolo(f: Fragment, decode: Decoder)
    requires f.name != ""
    ensures SoloStep(None, f, decode) == SoloStep(Some(ToolState(f.id, f.name, "", false)), f, decode)
  {
  }

  lemma NamelessIsIgnored(f: Fragment, decode: Decoder)
    requires f.name == ""
    ensures SoloStep(None, f, decode) == Solo(None, [], false)
  {
  }

  lemma SoloCallsAreMine(st: Option<ToolState>, f: Fragment, decode: Decoder)
    requires st.Some? ==> st.value.id == f.id
    ensures var calls := SoloStep(st, f, decode).calls;
            CallsOf(calls, f.id) == calls && forall id :: id != f.id ==> CallsOf(calls, id) == []
  {
    hide Finish, CallsOf;
    FinishKeepsId(decode);
    var s := TakeInput(if st.None? then ToolState(f.id, f.name, "", false) else st.value, f.input);
    forall id ensures CallsOf([], id) == [] && CallsOf(Calls(Finish(s, decode)), id) ==
        if id == f.id then Calls(Finish(s, decode)) else [] {
      NoCalls(id);
      CallsOfFinished(Finish(s, decode), id);
    }
  }

  lemma FinishKeepsId(decode: Decoder)
    ensures forall s :: Finish(s, decode).Emitted? ==> Finish(s, decode).call.id == s.id
  {
  }

  lemma {:induction false} StepsAreSolo(t: Table, fs: seq<Fragment>, decode: Decoder, id: string)
    requires AllNamed(t, fs)
    requires !Steps(t, fs, decode).failed
    ensures AllNamed(Steps(t, fs, decode).table, [])
    ensures var o := Steps(t, fs, decode);
            SoloSteps(t.Get(id), Mine(fs, id), decode) == Solo(o.table.Get(id), CallsOf(o.calls, id), false)
    decreases |fs|
  {
    hide Step, SoloStep, Mine, CallsOf;
    MineStep(fs, id);
    NoCalls(id);
    if fs != [] {
      var first := Step(t, fs[0], decode);
      assert fs[0] in fs;
      StepIsSolo(t, fs[0], decode);
      assert forall f :: f in fs[1..] ==> f in fs;
      StepsAreSolo(first.table, fs[1..], decode, id);
      CallsOfConcat(first.calls, Steps(first.table, fs[1..], decode).calls, id);
      assert fs[0].id == id ==> Mine(fs, id)[1..] == Mine(fs[1..], id);
    }
  }

  lemma MineStep(fs: seq<Fragment>, id: string)
    ensures Mine(fs, id) == if fs == [] then [] else if fs[0].id == id then [fs[0]] + Mine(fs[1..], id)
              else Mine(fs[1..], id)
  {
  }

  lemma NoCalls(id: string)
    ensures CallsOf([], id) == []
  {
  }

  /** The final flush finishes each pending call once. */
  lemma {:induction false} FlushIsSolo(byId: map<string, ToolState>, order: seq<string>, decode: Decoder, id: string)
    requires Distinct(order) && forall x :: x in order ==> x in byId && byId[x].id == x
    requires !Flush(byId, order, decode).failed
    ensures id in order ==> !Finish(byId[id], decode).Incomplete?
    ensures CallsOf(Flush(byId, order, decode).calls, id) == if id in order then Calls(Finish(byId[id], decode)) else []
  {
    hide Finish, CallsOf;
    NoCalls(id);
    if order != [] {
      var rest := order[1..];
      assert forall x :: x in order <==> x == order[0] || x in rest;
      assert order[0] !in rest;
      FlushIsSolo(byId, rest, decode, id);
      FinishKeepsId(decode);
      CallsOfFinished(Finish(byId[order[0]], decode), id);
      CallsOfConcat(Calls(Finish(byId[order[0]], decode)), Flush(byId, rest, decode).calls, id);
    }
  }

  /** A stream of one id's fragments runs exactly as that call alone. */
  lemma {:induction false} OnlyMineIsSolo(t: Table, fs: seq<Fragment>, decode: Decoder, id: string)
    requires AllNamed(t, fs) && (forall f :: f in fs ==> f.id == id) && t.byId.Keys <= {id}
    ensures var o, solo := Steps(t, fs, decode), SoloSteps(t.Get(id), fs, decode);
            && o.failed == solo.failed && o.calls == solo.calls && o.table.Get(id) == solo.state
            && o.table.Valid() && o.table.byId.Keys <= {id}
    decreases |fs|
  {
    hide Step, SoloStep;
    if fs != [] {
      var first := Step(t, fs[0], decode);
      assert fs[0] in fs;
      StepIsSolo(t, fs[0], decode);
      assert first.table.byId.Keys <= {id} by {
        forall x | x in first.table.byId ensures x == id {
          assert x != id ==> first.table.Get(x) == t.Get(x);
        }
      }
      if !first.failed {
        assert forall f :: f in fs[1..] ==> f in fs;
        OnlyMineIsSolo(first.table, fs[1..], decode, id);
      }
    }
  }

  lemma AtMostOne(order: seq<string>, id: string)
    requires Distinct(order) && forall x :: x in order ==> x == id
    ensures order == if id in order then [id] else []
  {
    assert |order| <= 1 || order[0] != order[1];
    assert |order| == 1 ==> order == [order[0]] && order[0] in order;
    forall j | 0 <= j < |order| ensures order[j] == id { assert order[j] in order; }
  }

  lemma SinglePending(t: Table, decode: Decoder, id: string)
    requires t.Valid() && t.byId.Keys <= {id}
    ensures var o, done := Flush(t.byId, t.order, decode), SoloEnd(t.Get(id), decode);
            o.failed == done.Incomplete? && (!o.failed ==> o.calls == Calls(done))
  {
    hide Finish;
    forall x | x in t.order ensures x == id { assert x in t.byId.Keys; }
    AtMostOne(t.order, id);
    assert id in t.byId <==> id in t.order;
    assert [id][1..] == [];
    if id in t.byId {
      assert Calls(Finish(t.byId[id], decode)) + [] == Calls(Finish(t.byId[id], decode));
    }
  }

  /**
   When every fragment carries an id and nothing fails, the calls emitted for an id under any
   interleaving are those of running its fragments alone.
   */
  lemma InterleavingDoesNotMatter(fs: seq<Fragment>, decode: Decoder, id: string)
    requires forall f :: f in fs ==> f.id != ""
    requires !Run(EMPTY_TABLE, fs, decode).failed
    ensures !Run(EMPTY_TABLE, Mine(fs, id), decode).failed
    ensures CallsOf(Run(EMPTY_TABLE, fs, decode).calls, id) == Run(EMPTY_TABLE, Mine(fs, id), decode).calls
  {
    hide Steps, SoloSteps, Flush, Finish, Mine, CallsOf;
    var steps := Steps(EMPTY_TABLE, fs, decode);
    StepsAreSolo(EMPTY_TABLE, fs, decode, id);
    FlushIsSolo(steps.table.byId, steps.table.order, decode, id);
    CallsOfConcat(steps.calls, Flush(steps.table.byId, steps.table.order, decode).calls, id);
    MineIsMine(fs, id);
    var mine := Steps(EMPTY_TABLE, Mine(fs, id), decode);
    OnlyMineIsSolo(EMPTY_TABLE, Mine(fs, id), decode, id);
    SinglePending(mine.table, decode, id);
  }

  /** The argument text of some fragments, which is all in pieces. */
  function JoinedInput(fs: seq<Fragment>): string
    requires forall f :: f in fs ==> f.input.TextInput?
  {
    if fs == [] then "" else fs[0].input.text + JoinedInput(fs[1..])
  }

  /** The fragments of one call, of which at most the last says stop. */
  predicate IsOneCall(fs: seq<Fragment>, id: string) {
    && (forall f :: f in fs ==> f.id == id && f.input.TextInput?)
    && forall i :: 0 <= i < |fs| - 1 ==> !fs[i].stop
  }

  lemma {:induction false} SoloJoins(fs: seq<Fragment>, s: ToolState, decode: Decoder)
    requires fs != [] && IsOneCall(fs, s.id)
    ensures var whole := s.(input := s.input + JoinedInput(fs));
            SoloSteps(Some(s), fs, decode) ==
              if !fs[|fs| - 1].stop then Solo(Some(whole), [], false)
              else if Finish(whole, decode).Incomplete? then Solo(Some(whole), [], true)
                  else Solo(None, Calls(Finish(whole, decode)), false)
    decreases |fs|
  {
    hide Finish;
    assert fs[0] in fs;
    var next := s.(input := s.input + fs[0].input.text);
    if |fs| == 1 {
      assert fs[1..] == [];
      assert s.input + JoinedInput(fs) == next.input == next.input + "";
      assert Calls(Finish(next, decode)) + [] == Calls(Finish(next, decode));
    } else {
      assert IsOneCall(fs[1..], s.id);
      SoloJoins(fs[1..], next, decode);
      ConcatAssociative(s.input, fs[0].input.text, JoinedInput(fs[1..]));
    }
  }

  /**
   However its arguments are cut into pieces, and with or without a stop, a call is made once, with the
   pieces joined and decoded, or refused if they are no JSON object.
   */
  lemma PiecesAreJoined(fs: seq<Fragment>, id: string, decode: Decoder)
    requires fs != [] && id != "" && IsOneCall(fs, id) && fs[0].name != ""
    ensures var text, o := TrimSpace(JoinedInput(fs)), Run(EMPTY_TABLE, fs, decode);
            && (o.failed <==> text != "" && decode(text).None?)
            && (!o.failed ==> o.calls == [Call(id, fs[0].name, if text == "" then "{}" else decode(text).value)])
  {
    FinishCarries(ToolState(id, fs[0].name, JoinedInput(fs), false), decode);
    hide Steps, Flush, Finish;
    assert fs[0] in fs;
    OnlyMineIsSolo(EMPTY_TABLE, fs, decode, id);
    NewIsSolo(fs[0], decode);
    SoloFirst(fs, decode);
    assert "" + JoinedInput(fs) == JoinedInput(fs);
    SoloJoins(fs, ToolState(id, fs[0].name, "", false), decode);
    var steps := Steps(EMPTY_TABLE, fs, decode);
    if !steps.failed {
      SinglePending(steps.table, decode, id);
      var calls := Calls(Finish(ToolState(id, fs[0].name, JoinedInput(fs), false), decode));
      assert [] + calls == calls && calls + [] == calls;
    }
  }

  /** What becomes of the arguments when a call is finished. */
  lemma FinishCarries(s: ToolState, decode: Decoder)
    requires s.name != ""
    ensures var text, done := TrimSpace(s.input), Finish(s, decode);
            && (done.Incomplete? <==> text != "" && decode(text).None?)
            && (!done.Incomplete? ==>
                  Calls(done) == [Call(s.id, s.name, if text == "" then "{}" else decode(text).value)])
  {
  }

  lemma SoloFirst(fs: seq<Fragment>, decode: Decoder)
    requires fs != [] && fs[0].name != ""
    ensures SoloSteps(None, fs, decode) == SoloSteps(Some(ToolState(fs[0].id, fs[0].name, "", false)), fs, decode)
  {
    hide Finish;
    NewIsSolo(fs[0], decode);
  }

  lemma {:induction false} MineIsMine(fs: seq<Fragment>, id: string)
    ensures forall f :: f in Mine(fs, id) ==> f in fs && f.id == id
  {
    MineStep(fs, id);
    if fs != [] {
      MineIsMine(fs[1..], id);
    }
  }

  /**
   A call whose opening fragment came without an id ends up as if the id had been there from the
   start: its arguments are not split in two.
   */
  lemma {:induction false} LateIdIsAdopted(t: Table, opening: Fragment, next: Fragment, decode: Decoder)
    requires t.Valid() && t.lastId == ""
    requires opening.id == "" && opening.name != "" && !opening.stop
    requires opening.spare != "" && opening.spare !in t.byId
    requires next.id != "" && next.id !in t.byId && next.id != opening.spare
               && (next.name == "" || next.name == opening.name)
    ensures Steps(t, [opening, next], decode) == Steps(t, [opening.(id := next.id), next], decode)
  {
    hide Finish, Absorb, Without, Replace, Step;
    var s := TakeInput(ToolState(opening.spare, opening.name, "", true), opening.input);
    var named := s.(id := next.id, generated := false);
    var late, early := t.Add(s), t.Add(named);
    OpeningIsAdded(t, opening, decode);
    OpeningIsAdded(t, opening.(id := next.id), decode);
    RekeyedIsNamed(t, s, next.id);
    NextIsAbsorbed(late, s, next, decode);
    NextIsKnown(early, next, decode);
    hide Table.Rekey, Table.Add, TakeInput;
    assert [opening, next][1..] == [next] && [next][1..] == [];
    assert [opening.(id := next.id), next][1..] == [next];
  }

  lemma RekeyedIsNamed(t: Table, s: ToolState, newId: string)
    requires t.Valid() && s.id !in t.byId && newId !in t.byId
    ensures t.Add(s).Rekey(s, newId) == t.Add(s.(id := newId, generated := false))
  {
    var late := t.Add(s);
    assert late.byId - {s.id} == t.byId;
    assert forall j :: 0 <= j < |t.order| ==> t.order[j] in t.order;
    ReplaceIsUpdate(late.order, s.id, newId, |t.order|);
    assert late.order[|t.order| := newId] == t.order + [newId];
  }

  /** The next fragment brings the id of the pending call. */
  lemma NextIsAbsorbed(t: Table, s: ToolState, next: Fragment, decode: Decoder)
    requires t.lastId != "" && t.lastId in t.byId && t.byId[t.lastId] == s && s.generated
    requires next.id != "" && next.id !in t.byId && (next.name == "" || next.name == s.name)
    ensures Step(t, next, decode)
              == Absorb(t.Rekey(s, next.id).(lastId := next.id), next.id, next, [], decode)
  {
    hide Absorb, Replace;
  }

  lemma NextIsKnown(t: Table, next: Fragment, decode: Decoder)
    requires next.id != "" && next.id in t.byId && t.lastId == next.id
    ensures Step(t, next, decode) == Absorb(t, next.id, next, [], decode)
  {
    hide Absorb;
  }

  /** An opening fragment with nothing before it becomes an entry of its own. */
  lemma OpeningIsAdded(t: Table, opening: Fragment, decode: Decoder)
    requires t.lastId == "" && opening.name != "" && !opening.stop
    requires if opening.id == "" then opening.spare !in t.byId else opening.id !in t.byId
    ensures var id := if opening.id == "" then opening.spare else opening.id;
            var s := TakeInput(ToolState(id, opening.name, "", opening.id == ""), opening.input);
            Step(t, opening, decode) == Outcome(t.Add(s), [], false)
  {
    hide Finish;
  }

  // ---------------------------------------------------------------- the table in place

  class PendingToolUses {
    var byId: map<string, ToolState>
    var order: seq<string>
    var lastId: string

    ghost function View(): Table
      reads this
    {
      Table(byId, order, lastId)
    }

    constructor ()
      ensures View() == EMPTY_TABLE && View().Valid()
    {
      byId, order, lastId := map[], [], "";
    }

    method Add(s: ToolState)
      modifies this
      ensures View() == old(View()).Add(s)
    {
      byId := byId[s.id := s];
      order := order + [s.id];
      lastId := s.id;
    }

    method Rekey(s: ToolState, newId: string)
      modifies this
      ensures View() == old(View()).Rekey(s, newId)
    {
      byId := byId - {s.id};
      var i := 0;
      while i < |order| && order[i] != s.id
        invariant 0 <= i <= |order|
        invariant forall j :: 0 <= j < i ==> order[j] != s.id
      {
        i := i + 1;
      }
      if i < |order| {
        ReplaceIsUpdate(order, s.id, newId, i);
        order := order[i := newId];
      } else {
        AbsentIsKept(order, s.id, newId);
      }
      byId := byId[newId := s.(id := newId, generated := false)];
      if lastId == s.id { lastId := newId; }
    }

    method Remove(id: string)
      modifies this
      ensures View() == old(View()).Remove(id)
    {
      byId := byId - {id};
      var i := 0;
      while i < |order| && order[i] != id
        invariant 0 <= i <= |order|
        invariant forall j :: 0 <= j < i ==> order[j] != id
      {
        i := i + 1;
      }
      if i < |order| {
        WithoutIsCut(order, id, i);
        order := order[..i] + order[i + 1..];
      } else {
        AbsentIsKept(order, id, id);
      }
      if lastId == id { lastId := ""; }
    }

    /** The end of handleToolUseEvent: the fragment's input, and the call itself on a stop. */
    method TakeFragment(id: string, f: Fragment, before: seq<Call>, decode: Decoder)
        returns (calls: seq<Call>, failed: bool)
      requires id in byId
      modifies this
      ensures Outcome(View(), calls, failed) == Absorb(old(View()), id, f, before, decode)
    {
      calls := before;
      byId := byId[id := TakeInput(byId[id], f.input)];
      if f.stop {
        var done := Finish(byId[id], decode);
        if done.Incomplete? { return calls, true; }
        calls := calls + Calls(done);
        Remove(id);
      }
      return calls, false;
    }

    /** A fragment of one call; without an id it continues the call seen last. */
    method HandleToolUseEvent(f: Fragment, decode: Decoder) returns (calls: seq<Call>, failed: bool)
      requires View().Valid()
      requires f.id == "" ==> f.spare != "" && f.spare !in byId
      modifies this
      ensures Outcome(View(), calls, failed) == Step(old(View()), f, decode)
      ensures View().Valid()
    {
      hide Absorb, Finish;
      StepKeepsValid(View(), f, decode);
      calls, failed := [], false;
      if f.id != "" {
        if f.id !in byId && lastId != "" && lastId in byId {
          var prev := byId[lastId];
          if prev.generated && (f.name == "" || prev.name == f.name) {
            Rekey(prev, f.id);
          }
        }
        if f.id !in byId {
          if f.name == "" { return; }
          Add(ToolState(f.id, f.name, "", false));
        } else {
          lastId := f.id;
        }
        calls, failed := TakeFragment(f.id, f, [], decode);
      } else if lastId != "" && lastId in byId {
        var s := byId[lastId];
        if f.name != "" && s.name != f.name {
          var done := Finish(s, decode);
          if done.Incomplete? { return [], true; }
          Remove(s.id);
          Add(ToolState(f.spare, f.name, "", true));
          calls, failed := TakeFragment(f.spare, f, Calls(done), decode);
        } else {
          calls, failed := TakeFragment(lastId, f, [], decode);
        }
      } else if f.name != "" {
        Add(ToolState(f.spare, f.name, "", true));
        calls, failed := TakeFragment(f.spare, f, [], decode);
      }
    }

    /** Finishes what never got its stop, in arrival order, up to the first that is incomplete. */
    method FlushAll(decode: Decoder) returns (calls: seq<Call>, failed: bool)
      modifies this
      ensures View() == EMPTY_TABLE
      ensures Outcome(View(), calls, failed) == Flush(old(byId), old(order), decode)
    {
      var ids, states := order, byId;
      byId, order, lastId := map[], [], "";
      calls, failed := FinishInOrder(states, ids, decode);
    }
  }

  /** The loop of flushAll, over what the table held. */
  method FinishInOrder(states: map<string, ToolState>, ids: seq<string>, decode: Decoder)
      returns (calls: seq<Call>, failed: bool)
    ensures Outcome(EMPTY_TABLE, calls, failed) == Flush(states, ids, decode)
  {
    hide Finish, Flush;
    calls, failed := [], false;
    assert ids[0..] == ids;
    NothingToFlush(states, ids, decode);
    var i := 0;
    while i < |ids|
      invariant 0 <= i <= |ids|
      invariant FlushesTo(states, ids, i, calls, decode)
    {
      FlushFirst(states, ids, i, calls, decode);
      if ids[i] in states {
        var done := Finish(states[ids[i]], decode);
        if done.Incomplete? { return calls, true; }
        calls := calls + Calls(done);
      }
      i := i + 1;
    }
    assert ids[|ids|..] == [] && calls + [] == calls;
  }

  /** What is left to flush after `i` entries completes the calls made so far. */
  predicate FlushesTo(states: map<string, ToolState>, ids: seq<string>, i: nat, calls: seq<Call>, decode: Decoder)
    requires i <= |ids|
  {
    var rest := Flush(states, ids[i..], decode);
    Flush(states, ids, decode) == rest.(calls := calls + rest.calls)
  }

  lemma NothingToFlush(states: map<string, ToolState>, ids: seq<string>, decode: Decoder)
    ensures FlushesTo(states, ids, 0, [], decode)
    ensures Flush(states, [], decode) == Outcome(EMPTY_TABLE, [], false)
  {
    hide Finish;
    assert ids[0..] == ids;
    var all := Flush(states, ids, decode);
    assert [] + all.calls == all.calls;
  }

  lemma FlushFirst(states: map<string, ToolState>, ids: seq<string>, i: nat, calls: seq<Call>, decode: Decoder)
    requires i < |ids| && FlushesTo(states, ids, i, calls, decode)
    ensures var done := if ids[i] in states then Finish(states[ids[i]], decode) else Nothing;
            if done.Incomplete? then Flush(states, ids, decode) == Outcome(EMPTY_TABLE, calls, true)
            else FlushesTo(states, ids, i + 1, calls + Calls(done), decode)
    ensures calls + [] == calls
  {
    hide Finish;
    assert ids[i..][1..] == ids[i + 1..];
    var done := if ids[i] in states then Finish(states[ids[i]], decode) else Nothing;
    if done.Incomplete? {
      assert calls + [] == calls;
    } else {
      ConcatAssociative(calls, Calls(done), Flush(states, ids[i + 1..], decode).calls);
    }
  }

  /** The generated ids are new: no two are equal, and none is an id the stream carries. */
  ghost predicate SparesAreFresh(fs: seq<Fragment>) {
    && (forall i :: 0 <= i < |fs| ==> fs[i].spare != "")
    && (forall i, j :: 0 <= i < |fs| && 0 <= j < |fs| ==> fs[i].spare != fs[j].id)
    && (forall i, j :: 0 <= i < j < |fs| ==> fs[i].spare != fs[j].spare)
  }

  /** A fragment brings in no id but its own or the one generated for it. */
  lemma StepBringsOwnId(t: Table, f: Fragment, decode: Decoder)
    ensures Step(t, f, decode).table.byId.Keys <= t.byId.Keys + {f.id, f.spare}
  {
    hide Finish, Replace, Without;
  }

  /** All ids come from the first `n` fragments: their own or the ones generated for them. */
  ghost predicate ComeFrom(ids: set<string>, fs: seq<Fragment>, n: nat) {
    forall id :: id in ids ==> exists j :: 0 <= j < n <= |fs| && (id == fs[j].id || id == fs[j].spare)
  }

  lemma ComeFromMore(ids: set<string>, more: set<string>, fs: seq<Fragment>, n: nat)
    requires n < |fs| && ComeFrom(ids, fs, n) && more <= ids + {fs[n].id, fs[n].spare}
    ensures ComeFrom(more, fs, n + 1)
  {
    forall id | id in more ensures exists j :: 0 <= j < n + 1 <= |fs| && (id == fs[j].id || id == fs[j].spare) {
      if id in ids {
        var j :| 0 <= j < n <= |fs| && (id == fs[j].id || id == fs[j].spare);
      } else {
        assert id == fs[n].id || id == fs[n].spare;
      }
    }
  }

  lemma SpareIsNew(ids: set<string>, fs: seq<Fragment>, n: nat)
    requires n < |fs| && ComeFrom(ids, fs, n) && SparesAreFresh(fs)
    ensures fs[n].spare != "" && fs[n].spare !in ids
  {
  }

  lemma StepsFirst(t: Table, fs: seq<Fragment>, i: nat, decode: Decoder)
    requires i < |fs|
    ensures var first := Step(t, fs[i], decode);
            Steps(t, fs[i..], decode) ==
              if first.failed then first
              else
                var rest := Steps(first.table, fs[i + 1..], decode);
                rest.(calls := first.calls + rest.calls)
  {
    hide Step;
    assert fs[i..][1..] == fs[i + 1..];
  }

  /** A whole stream through the table in place. */
  method RunStream(fs: seq<Fragment>, decode: Decoder) returns (calls: seq<Call>, failed: bool)
    requires SparesAreFresh(fs)
    ensures failed == Run(EMPTY_TABLE, fs, decode).failed && calls == Run(EMPTY_TABLE, fs, decode).calls
    ensures !failed && (forall f :: f in fs ==> f.id != "") ==>
              forall id :: CallsOf(calls, id) == Run(EMPTY_TABLE, Mine(fs, id), decode).calls
  {
    hide Step, Flush, Mine, CallsOf, SparesAreFresh, ComeFrom, Table.Valid;
    var table := new PendingToolUses();
    NothingPending(fs, decode);
    calls, failed := [], false;
    assert fs[0..] == fs && table.byId.Keys == {};
    var i := 0;
    while i < |fs|
      invariant 0 <= i <= |fs| && fresh(table) && table.View().Valid()
      invariant ComeFrom(table.byId.Keys, fs, i)
      invariant var rest := Steps(table.View(), fs[i..], decode);
                Steps(EMPTY_TABLE, fs, decode) == rest.(calls := calls + rest.calls)
    {
      hide Steps;
      ghost var before := table.View();
      SpareIsNew(table.byId.Keys, fs, i);
      StepBringsOwnId(before, fs[i], decode);
      StepsFirst(before, fs, i, decode);
      var more: seq<Call>;
      more, failed := table.HandleToolUseEvent(fs[i], decode);
      ComeFromMore(before.byId.Keys, table.byId.Keys, fs, i);
      ConcatAssociative(calls, more, Steps(table.View(), fs[i + 1..], decode).calls);
      calls := calls + more;
      if failed { return; }
      i := i + 1;
    }
    var rest: seq<Call>;
    rest, failed := table.FlushAll(decode);
    calls := calls + rest;
    if !failed && forall f :: f in fs ==> f.id != "" {
      forall id ensures CallsOf(Run(EMPTY_TABLE, fs, decode).calls, id)
          == Run(EMPTY_TABLE, Mine(fs, id), decode).calls {
        InterleavingDoesNotMatter(fs, decode, id);
      }
    }
  }

  lemma NothingPending(fs: seq<Fragment>, decode: Decoder)
    ensures EMPTY_TABLE.Valid() && ComeFrom({}, fs, 0)
    ensures var rest := Steps(EMPTY_TABLE, fs, decode); rest == rest.(calls := [] + rest.calls)
  {
  }
}
