/**
 What the table of tool calls amounts to (proxy/kiro.go, handleToolUseEvent): every call that is opened
 is made once, and a fragment without an id means the call in flight.
 */
module ToolLaws {
  import opened Text
  import opened Overlap
  import opened ToolTable

  // ---------------------------------------------------------------- no call is lost or made twice

  /** The names of some calls, each as often as it occurs. */
  function NamesOf(calls: seq<Call>): multiset<string> {
    multiset(seq(|calls|, i requires 0 <= i < |calls| => calls[i].name))
  }

  lemma NamesConcat(a: seq<Call>, b: seq<Call>)
    ensures NamesOf(a + b) == NamesOf(a) + NamesOf(b)
  {
    var ab := a + b;
    assert seq(|ab|, i requires 0 <= i < |ab| => ab[i].name)
        == seq(|a|, i requires 0 <= i < |a| => a[i].name) + seq(|b|, i requires 0 <= i < |b| => b[i].name);
  }

  lemma NamesOfOne(call: Call)
    ensures NamesOf([call]) == multiset{call.name}
  {
    assert seq(1, i requires 0 <= i < 1 => [call][i].name) == [call.name];
  }

  /** The names of what is pending. */
  function Pending(byId: map<string, ToolState>, order: seq<string>): multiset<string>
    requires forall id :: id in order ==> id in byId
  {
    if order == [] then multiset{}
    else
      assert order[0] in order;
      multiset{byId[order[0]].name} + Pending(byId, order[1..])
  }

  lemma {:induction false} PendingSame(a: map<string, ToolState>, b: map<string, ToolState>, order: seq<string>)
    requires forall id :: id in order ==> id in a && id in b && a[id].name == b[id].name
    ensures Pending(a, order) == Pending(b, order)
  {
    if order != [] {
      assert order[0] in order;
      PendingSame(a, b, order[1..]);
    }
  }

  lemma {:induction false} PendingSnoc(byId: map<string, ToolState>, order: seq<string>, id: string)
    requires id in byId && forall x :: x in order ==> x in byId
    ensures forall x :: x in order + [id] ==> x in byId
    ensures Pending(byId, order + [id]) == Pending(byId, order) + multiset{byId[id].name}
  {
    if order == [] {
      assert [] + [id] == [id] && [id][1..] == [];
    } else {
      assert order[0] in order;
      PendingSnoc(byId, order[1..], id);
      assert (order + [id])[0] == order[0] && (order + [id])[1..] == order[1..] + [id];
    }
  }

  lemma {:induction false} PendingWithout(byId: map<string, ToolState>, order: seq<string>, id: string)
    requires id in order && forall x :: x in order ==> x in byId
    ensures forall x :: x in Without(order, id) ==> x in byId
    ensures Pending(byId, order) == Pending(byId, Without(order, id)) + multiset{byId[id].name}
  {
    assert order[0] in order;
    if order[0] != id {
      PendingWithout(byId, order[1..], id);
      var rest := Without(order[1..], id);
      assert ([order[0]] + rest)[1..] == rest;
    }
  }

  lemma {:induction false} PendingReplaced(a: map<string, ToolState>, b: map<string, ToolState>, order: seq<string>,
                                           id: string, newId: string)
    requires Distinct(order) && newId !in order && (forall x :: x in order ==> x in a)
    requires forall x :: x in order && x != id ==> x in b && b[x].name == a[x].name
    requires id in order ==> newId in b && b[newId].name == a[id].name
    ensures forall x :: x in Replace(order, id, newId) ==> x in b
    ensures Pending(b, Replace(order, id, newId)) == Pending(a, order)
  {
    if order != [] {
      assert order[0] in order;
      var rest := order[1..];
      if order[0] == id {
        assert id !in rest;
        assert ([newId] + rest)[1..] == rest;
        PendingSame(a, b, rest);
      } else {
        PendingReplaced(a, b, rest, id, newId);
        var replaced := Replace(rest, id, newId);
        assert ([order[0]] + replaced)[1..] == replaced;
      }
    }
  }

  ghost function PendingIn(t: Table): multiset<string>
    requires t.Valid()
  {
    Pending(t.byId, t.order)
  }

  /** A fragment opens a call: it has a name, and neither its id nor the call in flight takes it. */
  predicate Opens(t: Table, f: Fragment) {
    && f.name != ""
    && (if f.id != "" then f.id !in t.byId && !Adopts(t, f)
        else t.lastId == "" || t.lastId !in t.byId || t.byId[t.lastId].name != f.name)
  }

  lemma AddIsPending(t: Table, s: ToolState)
    requires t.Valid() && s.id !in t.byId && s.id != "" && s.name != ""
    ensures t.Add(s).Valid() && PendingIn(t.Add(s)) == PendingIn(t) + multiset{s.name}
  {
    AddKeepsValid(t, s);
    assert forall x :: x in t.order ==> x in t.byId && x != s.id;
    PendingSame(t.byId, t.Add(s).byId, t.order);
    PendingSnoc(t.Add(s).byId, t.order, s.id);
  }

  lemma RemoveIsPending(t: Table, id: string)
    requires t.Valid() && id in t.byId
    ensures t.Remove(id).Valid() && PendingIn(t) == PendingIn(t.Remove(id)) + multiset{t.byId[id].name}
  {
    RemoveKeepsValid(t, id);
    PendingWithout(t.byId, t.order, id);
    PendingSame(t.byId, t.Remove(id).byId, Without(t.order, id));
  }

  lemma RekeyIsPending(t: Table, s: ToolState, newId: string)
    requires t.Valid() && s.id in t.byId && t.byId[s.id] == s && newId !in t.byId && newId != ""
    ensures t.Rekey(s, newId).Valid() && PendingIn(t.Rekey(s, newId)) == PendingIn(t)
  {
    var i :| 0 <= i < |t.order| && t.order[i] == s.id;
    RekeyKeepsPosition(t, s, newId, i);
    PendingReplaced(t.byId, t.Rekey(s, newId).byId, t.order, s.id, newId);
  }

  /** Taking in a piece changes no name. */
  lemma TakingIsPending(t: Table, id: string, input: Input)
    requires t.Valid() && id in t.byId
    ensures var t' := t.(byId := t.byId[id := TakeInput(t.byId[id], input)]);
            t'.Valid() && PendingIn(t') == PendingIn(t)
  {
    PendingSame(t.byId, t.byId[id := TakeInput(t.byId[id], input)], t.order);
  }

  lemma AbsorbMakesCall(t: Table, id: string, f: Fragment, calls: seq<Call>, decode: Decoder)
    requires t.Valid() && id in t.byId
    ensures var o := Absorb(t, id, f, calls, decode);
            o.table.Valid()
            && (!o.failed ==> NamesOf(o.calls) + PendingIn(o.table) == NamesOf(calls) + PendingIn(t))
  {
    AbsorbKeepsValid(t, id, f, calls, decode);
    TakingIsPending(t, id, f.input);
    var s := TakeInput(t.byId[id], f.input);
    var t' := t.(byId := t.byId[id := s]);
    var done := Finish(s, decode);
    FinishNames(s, decode);
    hide Finish, NamesOf, TakeInput, PendingIn, Table.Valid;
    if f.stop && !done.Incomplete? {
      RemoveIsPending(t', id);
      NamesConcat(calls, Calls(done));
    }
  }

  lemma FinishNames(s: ToolState, decode: Decoder)
    requires s.name != ""
    ensures !Finish(s, decode).Incomplete? ==> NamesOf(Calls(Finish(s, decode))) == multiset{s.name}
  {
    var done := Finish(s, decode);
    if done.Emitted? { NamesOfOne(done.call); }
  }

  /** What is opened is pending until its call is made; nothing else makes a call or drops one. */
  lemma StepMakesCalls(t: Table, f: Fragment, decode: Decoder)
    requires t.Valid() && f.spare != "" && f.spare !in t.byId
    ensures var o := Step(t, f, decode);
            o.table.Valid() &&
            (!o.failed ==>
               NamesOf(o.calls) + PendingIn(o.table)
               == PendingIn(t) + (if Opens(t, f) then multiset{f.name} else multiset{}))
  {
    hide Absorb, NamesOf, Pending, Finish, Replace, Without;
    NoNames();
    StepKeepsValid(t, f, decode);
    if f.id != "" {
      if f.id in t.byId {
        assert t.(lastId := f.id).Valid();
        AbsorbMakesCall(t.(lastId := f.id), f.id, f, [], decode);
      } else if Adopts(t, f) {
        RekeyIsPending(t, t.byId[t.lastId], f.id);
        var rekeyed := t.Rekey(t.byId[t.lastId], f.id);
        assert rekeyed.(lastId := f.id).Valid();
        AbsorbMakesCall(rekeyed.(lastId := f.id), f.id, f, [], decode);
      } else if f.name != "" {
        AddIsPending(t, ToolState(f.id, f.name, "", false));
        AbsorbMakesCall(t.Add(ToolState(f.id, f.name, "", false)), f.id, f, [], decode);
      }
    } else if t.lastId != "" {
      var s := t.byId[t.lastId];
      if f.name == "" || s.name == f.name {
        AbsorbMakesCall(t, t.lastId, f, [], decode);
      } else if !Finish(s, decode).Incomplete? {
        RemoveIsPending(t, t.lastId);
        FinishNames(s, decode);
        var rest := t.Remove(t.lastId);
        AddIsPending(rest, ToolState(f.spare, f.name, "", true));
        AbsorbMakesCall(rest.Add(ToolState(f.spare, f.name, "", true)), f.spare, f, Calls(Finish(s, decode)), decode);
      }
    } else if f.name != "" {
      AddIsPending(t, ToolState(f.spare, f.name, "", true));
      AbsorbMakesCall(t.Add(ToolState(f.spare, f.name, "", true)), f.spare, f, [], decode);
    }
  }

  lemma NoNames()
    ensures NamesOf([]) == multiset{}
  {
  }

  lemma {:induction false} FlushMakesCalls(byId: map<string, ToolState>, order: seq<string>, decode: Decoder)
    requires forall id :: id in order ==> id in byId && byId[id].name != ""
    ensures var o := Flush(byId, order, decode); !o.failed ==> NamesOf(o.calls) == Pending(byId, order)
  {
    if order != [] {
      assert order[0] in order;
      FlushMakesCalls(byId, order[1..], decode);
      var done := Finish(byId[order[0]], decode);
      FinishNames(byId[order[0]], decode);
      NamesConcat(Calls(done), Flush(byId, order[1..], decode).calls);
    }
  }

  /** The names of the calls a stream opens. */
  function Opened(t: Table, fs: seq<Fragment>, decode: Decoder): multiset<string>
    decreases |fs|
  {
    if fs == [] then multiset{}
    else
      (if Opens(t, fs[0]) then multiset{fs[0].name} else multiset{})
      + Opened(Step(t, fs[0], decode).table, fs[1..], decode)
  }

  lemma {:induction false} StepsMakeCalls(t: Table, fs: seq<Fragment>, n: nat, decode: Decoder)
    requires t.Valid() && n <= |fs| && SparesAreFresh(fs) && ComeFrom(t.byId.Keys, fs, n)
    requires !Steps(t, fs[n..], decode).failed
    ensures var o := Steps(t, fs[n..], decode);
            o.table.Valid() && NamesOf(o.calls) + PendingIn(o.table) == PendingIn(t) + Opened(t, fs[n..], decode)
    decreases |fs| - n
  {
    hide *;
    if n < |fs| {
      var f := fs[n];
      var first := Step(t, f, decode);
      SpareIsNew(t.byId.Keys, fs, n);
      StepMakesCalls(t, f, decode);
      StepBringsOwnId(t, f, decode);
      ComeFromMore(t.byId.Keys, first.table.byId.Keys, fs, n);
      StepsFirst(t, fs, n, decode);
      StepsMakeCalls(first.table, fs, n + 1, decode);
      var rest := Steps(first.table, fs[n + 1..], decode);
      NamesConcat(first.calls, rest.calls);
      OpenedFirst(t, fs, n, decode);
      SumsChain(NamesOf(first.calls), NamesOf(rest.calls), PendingIn(t), PendingIn(first.table),
                PendingIn(rest.table), if Opens(t, f) then multiset{f.name} else multiset{},
                Opened(first.table, fs[n + 1..], decode));
    } else {
      NoSteps(t, fs, n, decode);
    }
  }

  lemma SumsChain(made: multiset<string>, more: multiset<string>, was: multiset<string>, now: multiset<string>,
                  later: multiset<string>, one: multiset<string>, others: multiset<string>)
    requires made + now == was + one && more + later == now + others
    ensures made + more + later == was + (one + others)
  {
    assert made + more + later == made + (more + later) == (made + now) + others;
  }

  lemma NoSteps(t: Table, fs: seq<Fragment>, n: nat, decode: Decoder)
    requires n == |fs|
    ensures var o := Steps(t, fs[n..], decode);
            o == Outcome(t, [], false) && NamesOf(o.calls) == Opened(t, fs[n..], decode) == multiset{}
  {
  }

  lemma OpenedFirst(t: Table, fs: seq<Fragment>, n: nat, decode: Decoder)
    requires n < |fs|
    ensures Opened(t, fs[n..], decode)
         == (if Opens(t, fs[n]) then multiset{fs[n].name} else multiset{})
            + Opened(Step(t, fs[n], decode).table, fs[n + 1..], decode)
  {
    hide Step, Opens;
    assert fs[n..][1..] == fs[n + 1..];
  }

  /**
   In every stream that does not fail, whatever ids its fragments carry, each call that is opened is made
   exactly once, and no other is made.
   */
  lemma EveryOpenedCallIsMade(fs: seq<Fragment>, decode: Decoder)
    requires SparesAreFresh(fs) && !Run(EMPTY_TABLE, fs, decode).failed
    ensures NamesOf(Run(EMPTY_TABLE, fs, decode).calls) == Opened(EMPTY_TABLE, fs, decode)
  {
    hide Step, NamesOf, Pending, Opens, Steps, Flush, SparesAreFresh, Opened;
    assert fs[0..] == fs && EMPTY_TABLE.byId.Keys == {};
    NothingPending(fs, decode);
    StepsMakeCalls(EMPTY_TABLE, fs, 0, decode);
    var steps := Steps(EMPTY_TABLE, fs, decode);
    FlushMakesCalls(steps.table.byId, steps.table.order, decode);
    NamesConcat(steps.calls, Flush(steps.table.byId, steps.table.order, decode).calls);
    NothingPendingYet();
  }

  lemma NothingPendingYet()
    ensures EMPTY_TABLE.Valid() && PendingIn(EMPTY_TABLE) == multiset{}
  {
  }

  // ---------------------------------------------------------------- fragments without an id

  /** A fragment without an id, and with no other name, is one of the call seen last. */
  lemma NoIdMeansLast(t: Table, f: Fragment, decode: Decoder)
    requires t.Valid() && t.lastId != "" && f.id == "" && (f.name == "" || f.name == t.byId[t.lastId].name)
    ensures Step(t, f, decode) == Step(t, f.(id := t.lastId), decode)
  {
    hide Finish, Without;
    assert t.(lastId := t.lastId) == t;
  }

  /** One with another name first ends the call seen last, as a stop would, whatever ids the calls have. */
  lemma NewNameEndsLast(t: Table, f: Fragment, decode: Decoder)
    requires t.Valid() && t.lastId != "" && f.id == "" && f.name != "" && f.name != t.byId[t.lastId].name
    ensures var stop := Fragment(t.lastId, "", NoInput, true, f.spare);
            var o := Steps(t, [stop, f], decode);
            Step(t, f, decode).failed == o.failed && (!o.failed ==> Step(t, f, decode) == o)
  {
    var stop := Fragment(t.lastId, "", NoInput, true, f.spare);
    var s, rest := t.byId[t.lastId], t.Remove(t.lastId);
    StopEndsLast(t, f.spare, decode);
    TwoSteps(t, stop, f, decode);
    FirstCallsJoin(rest, f, Calls(Finish(s, decode)), decode);
    var last := Step(rest, f, decode);
    hide Finish, Without, Absorb;
    assert [] + last.calls == last.calls;
  }

  lemma TwoSteps(t: Table, first: Fragment, second: Fragment, decode: Decoder)
    ensures var one := Step(t, first, decode);
            Steps(t, [first, second], decode)
            == if one.failed then one
               else var two := Step(one.table, second, decode); two.(calls := one.calls + two.calls)
  {
    hide Step;
    assert [first, second][1..] == [second] && [second][1..] == [];
    var one := Step(t, first, decode);
    var two := Step(one.table, second, decode);
    assert two.calls + [] == two.calls;
    assert Steps(one.table, [second], decode) == two;
  }

  lemma StopEndsLast(t: Table, spare: string, decode: Decoder)
    requires t.lastId != "" && t.lastId in t.byId
    ensures var done := Finish(t.byId[t.lastId], decode);
            Step(t, Fragment(t.lastId, "", NoInput, true, spare), decode)
            == if done.Incomplete? then Outcome(t, [], true) else Outcome(t.Remove(t.lastId), Calls(done), false)
  {
    hide Finish, Without;
    var s := t.byId[t.lastId];
    assert t.byId[t.lastId := s] == t.byId;
    assert t.(lastId := t.lastId) == t && t.(byId := t.byId) == t;
    var done := Finish(s, decode);
    assert [] + Calls(done) == Calls(done);
  }

  lemma FirstCallsJoin(t: Table, f: Fragment, calls: seq<Call>, decode: Decoder)
    requires t.lastId == "" && f.id == "" && f.name != ""
    ensures var added := t.Add(ToolState(f.spare, f.name, "", true));
            var o := Step(t, f, decode);
            Absorb(added, f.spare, f, calls, decode) == o.(calls := calls + o.calls)
  {
    hide Finish, Without;
    assert calls + [] == calls;
  }

  /** Arguments that come as a whole object take the place of the pieces that came before. */
  lemma WholeObjectReplaces(t: Table, piece: Fragment, whole: Fragment, decode: Decoder)
    requires piece.id == whole.id != "" && piece.id in t.byId && !piece.stop && whole.input.ObjectInput?
    ensures Steps(t, [piece, whole], decode) == Step(t, whole, decode)
  {
    TwoSteps(t, piece, whole, decode);
    var id := piece.id;
    var first := Step(t, piece, decode);
    assert first.table == Table(t.byId[id := TakeInput(t.byId[id], piece.input)], t.order, id);
    ObjectForgets(t, first.table, whole, decode);
    hide Step;
    var o := Step(t, whole, decode);
    assert [] + o.calls == o.calls;
  }

  lemma ObjectForgets(t: Table, more: Table, whole: Fragment, decode: Decoder)
    requires whole.id != "" && whole.id in t.byId && whole.input.ObjectInput? && more.order == t.order
    requires exists input :: more.byId == t.byId[whole.id := t.byId[whole.id].(input := input)]
    ensures Step(more, whole, decode) == Step(t, whole, decode)
  {
    hide Finish, Without;
    var s := TakeInput(t.byId[whole.id], whole.input);
    assert more.byId[whole.id := s] == t.byId[whole.id := s];
  }

  // ---------------------------------------------------------------- a stream without ids

  /** The fragments of one call when none has an id: the first brings the name, no other brings another. */
  predicate IsStretch(fs: seq<Fragment>) {
    && fs != [] && fs[0].name != ""
    && forall i :: 0 <= i < |fs| ==>
         fs[i].id == "" && !fs[i].stop && fs[i].input.TextInput? && (fs[i].name == "" || fs[i].name == fs[0].name)
  }

  function Flatten(stretches: seq<seq<Fragment>>): seq<Fragment> {
    if stretches == [] then [] else stretches[0] + Flatten(stretches[1..])
  }

  /** The call a stretch is to make: its name, and its pieces joined and decoded; None if they are no JSON object. */
  function StretchCall(fs: seq<Fragment>, decode: Decoder): Option<Call>
    requires IsStretch(fs)
  {
    var text := TrimSpace(StretchInput(fs));
    if text == "" then Some(Call(fs[0].spare, fs[0].name, "{}"))
    else if decode(text).None? then None
    else Some(Call(fs[0].spare, fs[0].name, decode(text).value))
  }

  lemma StretchIsFinished(fs: seq<Fragment>, decode: Decoder)
    requires IsStretch(fs)
    ensures var call := StretchCall(fs, decode);
            var done := Finish(ToolState(fs[0].spare, fs[0].name, StretchInput(fs), true), decode);
            && (done.Incomplete? <==> call.None?) && (call.Some? ==> Calls(done) == [call.value])
  {
    FinishCarries(ToolState(fs[0].spare, fs[0].name, StretchInput(fs), true), decode);
    hide Finish, TrimSpace, StretchInput;
  }

  function StretchInput(fs: seq<Fragment>): string
    requires forall i :: 0 <= i < |fs| ==> fs[i].input.TextInput?
  {
    if fs == [] then "" else StretchInput(fs[..|fs| - 1]) + fs[|fs| - 1].input.text
  }

  function StretchCalls(stretches: seq<seq<Fragment>>, decode: Decoder): seq<Call>
    requires forall i :: 0 <= i < |stretches| ==> IsStretch(stretches[i])
  {
    if stretches == [] then []
    else
      (var call := StretchCall(stretches[0], decode); if call.Some? then [call.value] else [])
      + StretchCalls(stretches[1..], decode)
  }

  /** One pending call, and nothing else. */
  function Only(s: ToolState): Table {
    Table(map[s.id := s], [s.id], s.id)
  }

  lemma PieceJoins(s: ToolState, f: Fragment, decode: Decoder)
    requires s.id != "" && s.name != "" && f.id == "" && !f.stop && f.input.TextInput?
    requires f.name == "" || f.name == s.name
    ensures Step(Only(s), f, decode) == Outcome(Only(s.(input := s.input + f.input.text)), [], false)
  {
    hide Finish;
    var more := s.(input := s.input + f.input.text);
    assert map[s.id := s][s.id := more] == map[s.id := more];
  }

  lemma {:induction false} StretchJoins(fs: seq<Fragment>, n: nat, decode: Decoder)
    requires IsStretch(fs) && fs[0].spare != "" && 0 < n <= |fs|
    ensures var s := ToolState(fs[0].spare, fs[0].name, StretchInput(fs[..n]), true);
            Steps(Only(s), fs[n..], decode) == Outcome(Only(s.(input := StretchInput(fs))), [], false)
    decreases |fs| - n
  {
    var s := ToolState(fs[0].spare, fs[0].name, StretchInput(fs[..n]), true);
    if n == |fs| {
      assert fs[..n] == fs && fs[n..] == [];
    } else {
      assert fs[..n + 1][..n] == fs[..n] && fs[n..][1..] == fs[n + 1..] && fs[n..][0] == fs[n];
      PieceJoins(s, fs[n], decode);
      hide Step, Finish;
      StretchJoins(fs, n + 1, decode);
    }
  }

  /** What the first fragment of a stretch does, nothing or one other call being pending. */
  lemma StretchBegins(t: Table, f: Fragment, decode: Decoder)
    requires f.id == "" && f.name != "" && !f.stop && f.input.TextInput? && f.spare != ""
    requires t == EMPTY_TABLE || (t.lastId != "" && t.lastId in t.byId && t == Only(t.byId[t.lastId])
                                  && t.byId[t.lastId].name != f.name && t.byId[t.lastId].name != "")
    ensures var o, done := Step(t, f, decode), if t == EMPTY_TABLE then Nothing else Finish(t.byId[t.lastId], decode);
            if done.Incomplete? then o.failed && o.calls == []
            else o == Outcome(Only(ToolState(f.spare, f.name, "" + f.input.text, true)), Calls(done), false)
  {
    hide Finish;
    if t != EMPTY_TABLE {
      var s := t.byId[t.lastId];
      assert t.byId == map[s.id := s] && s.id == t.lastId;
      assert Without([s.id], s.id) == [s.id][1..] == [];
      assert map[s.id := s] - {s.id} == map[];
    }
    var begun := ToolState(f.spare, f.name, "", true);
    var fed := begun.(input := "" + f.input.text);
    assert map[f.spare := begun][f.spare := fed] == map[f.spare := fed];
    assert [] + [f.spare] == [f.spare];
  }

  lemma {:induction false} StepsConcat(t: Table, a: seq<Fragment>, b: seq<Fragment>, decode: Decoder)
    ensures Steps(t, a + b, decode) ==
              var first := Steps(t, a, decode);
              if first.failed then first
              else var rest := Steps(first.table, b, decode); rest.(calls := first.calls + rest.calls)
    decreases |a|
  {
    hide Step;
    if a == [] {
      assert a + b == b;
      var rest := Steps(t, b, decode);
      assert [] + rest.calls == rest.calls;
    } else {
      assert (a + b)[0] == a[0] && (a + b)[1..] == a[1..] + b;
      var one := Step(t, a[0], decode);
      if !one.failed {
        StepsConcat(one.table, a[1..], b, decode);
        var more := Steps(one.table, a[1..], decode);
        if !more.failed {
          ConcatAssociative(one.calls, more.calls, Steps(more.table, b, decode).calls);
        }
      }
    }
  }

  /** A stretch after another call, or first. */
  lemma StretchRuns(t: Table, fs: seq<Fragment>, decode: Decoder)
    requires IsStretch(fs) && fs[0].spare != ""
    requires t == EMPTY_TABLE || (t.lastId != "" && t.lastId in t.byId && t == Only(t.byId[t.lastId])
                                  && t.byId[t.lastId].name != fs[0].name && t.byId[t.lastId].name != "")
    ensures var o, done := Steps(t, fs, decode), if t == EMPTY_TABLE then Nothing else Finish(t.byId[t.lastId], decode);
            if done.Incomplete? then o.failed && o.calls == []
            else o == Outcome(Only(ToolState(fs[0].spare, fs[0].name, StretchInput(fs), true)), Calls(done), false)
  {
    hide Finish, Step;
    StretchBegins(t, fs[0], decode);
    assert fs[..1] == [fs[0]] && fs[..1][..0] == [];
    assert StretchInput(fs[..1]) == "" + fs[0].input.text;
    StretchJoins(fs, 1, decode);
    var done := if t == EMPTY_TABLE then Nothing else Finish(t.byId[t.lastId], decode);
    assert Calls(done) + [] == Calls(done);
  }

  /** Neighbouring stretches have different names. */
  predicate Alternate(stretches: seq<seq<Fragment>>) {
    && (forall i :: 0 <= i < |stretches| ==> IsStretch(stretches[i]) && stretches[i][0].spare != "")
    && forall i :: 0 <= i < |stretches| - 1 ==> stretches[i][0].name != stretches[i + 1][0].name
  }

  /** Some stretch of a list is refused. */
  predicate SomeRefused(stretches: seq<seq<Fragment>>, decode: Decoder)
    requires Alternate(stretches)
  {
    exists i :: 0 <= i < |stretches| && StretchCall(stretches[i], decode).None?
  }

  lemma AlternateRest(stretches: seq<seq<Fragment>>, decode: Decoder)
    requires Alternate(stretches) && stretches != []
    ensures var rest := stretches[1..];
            && Alternate(rest) && (rest != [] ==> rest[0][0].name != stretches[0][0].name)
            && (SomeRefused(stretches, decode) <==>
                StretchCall(stretches[0], decode).None? || SomeRefused(rest, decode))
  {
    hide Finish, IsStretch, StretchCall;
    var rest := stretches[1..];
    assert forall i :: 0 <= i < |rest| ==> rest[i] == stretches[i + 1];
    assert forall i :: 1 <= i < |stretches| ==> stretches[i] == rest[i - 1];
  }

  lemma {:induction false} StretchesRun(pending: ToolState, stretches: seq<seq<Fragment>>, decode: Decoder)
    requires Alternate(stretches) && pending.id != "" && pending.name != ""
    requires stretches != [] ==> stretches[0][0].name != pending.name
    ensures var o, last := Run(Only(pending), Flatten(stretches), decode), Finish(pending, decode);
            && (o.failed <==> last.Incomplete? || SomeRefused(stretches, decode))
            && (!o.failed ==> o.calls == Calls(last) + StretchCalls(stretches, decode))
    decreases |stretches|
  {
    if stretches == [] {
      OnlyFlushes(pending, decode);
    } else {
      var fs, rest := stretches[0], stretches[1..];
      var next := ToolState(fs[0].spare, fs[0].name, StretchInput(fs), true);
      AlternateRest(stretches, decode);
      StretchIsFinished(fs, decode);
      StretchRuns(Only(pending), fs, decode);
      hide Step, Finish, Steps, Flush, Run, SomeRefused, IsStretch, StretchInput, StretchCall;
      RunAfter(Only(pending), fs, Flatten(rest), decode);
      if !Finish(pending, decode).Incomplete? {
        StretchesRun(next, rest, decode);
        ConcatAssociative(Calls(Finish(pending, decode)), Calls(Finish(next, decode)), StretchCalls(rest, decode));
      }
    }
  }

  lemma OnlyFlushes(pending: ToolState, decode: Decoder)
    ensures var o, last := Run(Only(pending), [], decode), Finish(pending, decode);
            o.failed == last.Incomplete? && (!o.failed ==> o.calls == Calls(last))
  {
    hide Finish;
    var byId, last := map[pending.id := pending], Finish(pending, decode);
    assert [pending.id][1..] == [] && byId[pending.id] == pending;
    assert Flush(byId, [], decode) == Outcome(EMPTY_TABLE, [], false);
    assert Calls(last) + [] == Calls(last);
    assert Flush(byId, [pending.id], decode)
        == if last.Incomplete? then Outcome(EMPTY_TABLE, [], true) else Outcome(EMPTY_TABLE, Calls(last), false);
    assert Steps(Only(pending), [], decode) == Outcome(Only(pending), [], false);
    assert [] + Calls(last) == Calls(last);
  }

  lemma RunAfter(t: Table, a: seq<Fragment>, b: seq<Fragment>, decode: Decoder)
    ensures var first := Steps(t, a, decode);
            var o := Run(first.table, b, decode);
            && (Run(t, a + b, decode).failed <==> first.failed || o.failed)
            && (!first.failed && !o.failed ==> Run(t, a + b, decode).calls == first.calls + o.calls)
  {
    hide Steps, Flush;
    StepsConcat(t, a, b, decode);
    var first := Steps(t, a, decode);
    var steps := Steps(first.table, b, decode);
    if !first.failed && !steps.failed {
      ConcatAssociative(first.calls, steps.calls, Flush(steps.table.byId, steps.table.order, decode).calls);
    }
  }

  /**
   A stream none of whose fragments has an id: each stretch of one name is one call with its pieces
   joined, in order, and the stream is refused exactly if one of them has arguments that are no JSON object.
   */
  lemma StretchesAreCalls(stretches: seq<seq<Fragment>>, decode: Decoder)
    requires Alternate(stretches)
    ensures var o := Run(EMPTY_TABLE, Flatten(stretches), decode);
            && (o.failed <==> exists i :: 0 <= i < |stretches| && StretchCall(stretches[i], decode).None?)
            && (!o.failed ==> o.calls == StretchCalls(stretches, decode))
  {
    if stretches != [] {
      var fs, rest := stretches[0], stretches[1..];
      var next := ToolState(fs[0].spare, fs[0].name, StretchInput(fs), true);
      AlternateRest(stretches, decode);
      StretchIsFinished(fs, decode);
      StretchRuns(EMPTY_TABLE, fs, decode);
      hide Step, Finish, Steps, Flush, Run, IsStretch, StretchInput, StretchCall;
      RunAfter(EMPTY_TABLE, fs, Flatten(rest), decode);
      StretchesRun(next, rest, decode);
      var more := Run(Only(next), Flatten(rest), decode).calls;
      assert [] + more == more;
      assert SomeRefused(stretches, decode) <==>
             exists i :: 0 <= i < |stretches| && StretchCall(stretches[i], decode).None?;
    }
  }
}
