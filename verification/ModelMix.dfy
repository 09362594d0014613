/**
 The per-model totals and their late warmup (proxy/observe.go, proxy/observe_persist.go).  A restart
 rebuilds the rings at once but leaves the model totals to a scan of the whole log that ends while
 requests are already being counted; a stats reset in between makes that scan stale.
 */
module ModelMix {
  import opened MinuteRing

  /** One row of the request or error log. */
  datatype LogRow = LogRow(model: string, account: string, at: nat, count: Count)

  datatype Stat = Stat(count: Count, lastUsed: nat) {
    function Join(other: Stat): Stat {
      Stat(count.Plus(other.count), if lastUsed < other.lastUsed then other.lastUsed else lastUsed)
    }
  }

  const UNUSED := Stat(NONE, 0)

  /** What a row adds to its model; a retry leaves the time of last use as it is. */
  function StatOf(row: LogRow): Stat {
    Stat(row.count, if row.count.reqs > 0 then row.at else 0)
  }

  /** Rows rejected before an account was tried carry whatever model the client sent. */
  predicate IsOf(row: LogRow, model: string) {
    row.model == model && model != "" && row.account != ""
  }

  /** The reference: a model's total over the log. */
  function Total(log: seq<LogRow>, model: string): Stat {
    if log == [] then UNUSED
    else
      var last := log[|log| - 1];
      Total(log[..|log| - 1], model).Join(if IsOf(last, model) then StatOf(last) else UNUSED)
  }

  lemma JoinLaws(a: Stat, b: Stat, c: Stat)
    ensures a.Join(UNUSED) == a && UNUSED.Join(a) == a
    ensures a.Join(b).Join(c) == a.Join(b.Join(c))
    ensures a.Join(b) == b.Join(a)
  {
    hide Count.Plus;
    PlusNone();
    PlusAssociative(a.count, b.count, c.count);
    PlusCommutes(a.count, b.count);
  }

  lemma TotalSnoc(log: seq<LogRow>, row: LogRow, model: string)
    ensures Total(log + [row], model) == Total(log, model).Join(if IsOf(row, model) then StatOf(row) else UNUSED)
  {
    hide Stat.Join;
    assert (log + [row])[..|log|] == log;
  }

  lemma {:induction false} TotalConcat(a: seq<LogRow>, b: seq<LogRow>, model: string)
    ensures Total(a + b, model) == Total(a, model).Join(Total(b, model))
  {
    hide Stat.Join;
    if b == [] {
      assert a + b == a;
      JoinLaws(Total(a, model), UNUSED, UNUSED);
    } else {
      var init, last := b[..|b| - 1], b[|b| - 1];
      TotalConcat(a, init, model);
      assert (a + b)[..|a + b| - 1] == a + init;
      JoinLaws(Total(a, model), Total(init, model), if IsOf(last, model) then StatOf(last) else UNUSED);
    }
  }

  lemma {:induction false} TotalIsUsedBefore(log: seq<LogRow>, model: string, clock: nat)
    requires forall i :: 0 <= i < |log| ==> log[i].at <= clock
    ensures Total(log, model).lastUsed <= clock
  {
    hide Count.Plus;
    if log != [] { TotalIsUsedBefore(log[..|log| - 1], model, clock); }
  }

  function StatIn(stats: map<string, Stat>, model: string): Stat {
    if model in stats then stats[model] else UNUSED
  }

  /** The work a reload leaves for later: the rows logged when it happened, and the reset count then. */
  datatype Warmup = Warmup(maxRow: nat, generation: nat)

  /** The log grouped by model: each model's total, and nothing else. */
  ghost predicate IsGroupedByModel(models: map<string, Stat>, log: seq<LogRow>) {
    forall model :: StatIn(models, model) == Total(log, model)
  }

  class ModelTotals {
    var modelStats: map<string, Stat>
    var generation: nat

    /** The log since the last stats reset, from which row on it is in the totals, and the time of its last row. */
    ghost var log: seq<LogRow>
    ghost var start: nat
    ghost var clock: nat

    ghost predicate Valid()
      reads this
    {
      && start <= |log|
      && (forall i :: 0 <= i < |log| ==> log[i].at <= clock)
      && IsGroupedByModel(modelStats, log[start..])
    }

    constructor ()
      ensures Valid() && log == [] && start == 0 && generation == 0
    {
      modelStats, generation, log, start, clock := map[], 0, [], 0, 0;
    }

    /** A request or a failed attempt is counted, and logged. */
    method CountRow(row: LogRow)
      requires Valid() && clock <= row.at
      modifies this
      ensures Valid() && log == old(log) + [row] && start == old(start) && generation == old(generation)
    {
      hide Total, Stat.Join, StatOf;
      ghost var counted := log[start..];
      assert (log + [row])[start..] == counted + [row];
      if row.model != "" && row.account != "" {
        TotalIsUsedBefore(counted, row.model, row.at);
        var was := if row.model in modelStats then modelStats[row.model] else UNUSED;
        var now := Stat(was.count.Plus(row.count), if row.count.reqs > 0 then row.at else was.lastUsed);
        JoinsAs(was, row);
        modelStats := modelStats[row.model := now];
      }
      forall model ensures StatIn(modelStats, model) == Total(counted + [row], model) {
        TotalSnoc(counted, row, model);
        JoinLaws(Total(counted, model), UNUSED, UNUSED);
      }
      log, clock := log + [row], row.at;
    }

    /** A stats reset forgets the totals and the log. */
    method Reset()
      requires Valid()
      modifies this
      ensures Valid() && log == [] && start == 0 && generation == old(generation) + 1
    {
      generation, modelStats, log, start := generation + 1, map[], [], 0;
    }

    /** A reload empties the totals; what is logged so far is left to the warmup. */
    method Reload(newestRow: nat) returns (warmup: Warmup)
      requires Valid() && newestRow == |log|
      modifies this
      ensures Valid() && log == old(log) && start == |log| && generation == old(generation) + 1
      ensures warmup == Warmup(|log|, generation)
    {
      generation, modelStats, start := generation + 1, map[], |log|;
      assert log[start..] == [];
      warmup := Warmup(newestRow, generation);
    }

    /**
     The warmup adds what was logged before the reload: then every row counts exactly once. A stale one does
     nothing.
     */
    method RunWarmup(warmup: Warmup, models: map<string, Stat>)
      requires Valid()
      requires warmup.generation == generation ==> warmup.maxRow == start && IsGroupedByModel(models, log[..start])
      modifies this
      ensures Valid() && log == old(log) && generation == old(generation)
      ensures warmup.generation != generation ==> modelStats == old(modelStats) && start == old(start)
      ensures warmup.generation == generation ==> start == 0 && IsGroupedByModel(modelStats, log)
    {
      if generation != warmup.generation { return; }
      hide Total, Stat.Join, StatIn, IsGroupedByModel;
      var warmed := AddModels(modelStats, models);
      WholeLogCounts(log, start, modelStats, models, warmed);
      modelStats := warmed;
      start := 0;
      assert log[0..] == log;
    }
  }

  lemma {:induction false} WholeLogCounts(log: seq<LogRow>, start: nat, live: map<string, Stat>,
                                          models: map<string, Stat>, warmed: map<string, Stat>)
    requires start <= |log| && IsGroupedByModel(models, log[..start])
    requires IsGroupedByModel(live, log[start..])
    requires forall model :: StatIn(warmed, model) == StatIn(live, model).Join(StatIn(models, model))
    ensures IsGroupedByModel(warmed, log)
  {
    hide Total, Stat.Join, StatIn;
    forall model ensures StatIn(warmed, model) == Total(log, model) {
      TotalConcat(log[..start], log[start..], model);
      assert log[..start] + log[start..] == log;
      JoinLaws(Total(log[..start], model), Total(log[start..], model), UNUSED);
    }
  }

  lemma JoinsAs(was: Stat, row: LogRow)
    requires was.lastUsed <= row.at
    ensures var lastUsed := if row.count.reqs > 0 then row.at else was.lastUsed;
            was.Join(StatOf(row)) == Stat(was.count.Plus(row.count), lastUsed)
  {
    hide Count.Plus;
  }

  /** The loop of the warmup over its models. */
  method AddModels(stats: map<string, Stat>, models: map<string, Stat>) returns (r: map<string, Stat>)
    ensures forall model :: StatIn(r, model) == StatIn(stats, model).Join(StatIn(models, model))
  {
    hide Stat.Join;
    r := stats;
    var rest := models.Keys;
    forall model ensures StatIn(stats, model).Join(UNUSED) == StatIn(stats, model) {
      JoinLaws(StatIn(stats, model), UNUSED, UNUSED);
    }
    while rest != {}
      invariant rest <= models.Keys
      invariant forall model :: StatIn(r, model) ==
                  if model in rest then StatIn(stats, model) else StatIn(stats, model).Join(StatIn(models, model))
      decreases rest
    {
      var model :| model in rest;
      var ms := if model in r then r[model] else UNUSED;
      r := r[model := ms.Join(models[model])];
      rest := rest - {model};
    }
  }
}
