/** Scoring the artifacts a run wrote: the result rows of the runner
    (src/llm_eval/runner.py) read by the scorer (src/llm_eval/scoring.py). */
module RunReport {
  import opened Wrappers
  import opened Text
  import opened Config
  import opened Storage
  import opened Runner
  import opened RunnerProps
  import opened Scoring

  /** The row of some provider and sample of the run. */
  ghost predicate RowOfRun(ctx: Ctx, r: ResultRow)
    requires ValidCtx(ctx)
  {
    exists p: nat, s: nat :: p < |ctx.providers| && s < |ctx.samples| && RowOfPair(ctx, p, s, r)
  }

  /** Every row written so far is the row of some provider and sample. */
  ghost predicate RowsOfRun(ctx: Ctx, rows: seq<ResultRow>)
    requires ValidCtx(ctx)
  {
    forall k :: 0 <= k < |rows| ==> RowOfRun(ctx, rows[k])
  }

  lemma RowsOfRunSnoc(ctx: Ctx, rows: seq<ResultRow>, r: ResultRow, p: nat, s: nat)
    requires ValidCtx(ctx) && p < |ctx.providers| && s < |ctx.samples|
    requires RowsOfRun(ctx, rows) && RowOfPair(ctx, p, s, r)
    ensures RowsOfRun(ctx, rows + [r])
  {
    var ext := rows + [r];
    forall k | 0 <= k < |ext| ensures RowOfRun(ctx, ext[k]) {
      if k < |rows| {
        assert ext[k] == rows[k];
      } else {
        assert ext[k] == r;
      }
    }
  }

  lemma ProcessRows(ctx: Ctx, st: RunState, p: nat, s: nat)
    requires ValidCtx(ctx) && p < |ctx.providers| && s < |ctx.samples|
    requires RowsOfRun(ctx, st.rows)
    ensures RowsOfRun(ctx, Process(ctx, st, p, s).rows)
  {
    if st.status.Running? && Key(ctx, p, s) !in ctx.completed {
      PairRow(ctx, st, p, s);
      var n := Process(ctx, st, p, s);
      if !n.status.Crashed? {
        var r := n.rows[|st.rows|];
        assert n.rows == st.rows + [r];
        RowsOfRunSnoc(ctx, st.rows, r, p, s);
      }
    }
  }

  /** `RowsOfRun` of the rows, as a property of states. */
  ghost function RowsOfRunIn(ctx: Ctx): RunState -> bool
    requires ValidCtx(ctx)
  {
    (st: RunState) => RowsOfRun(ctx, st.rows)
  }

  /** Every step of a run writes only rows of the run's own pairs. */
  lemma RowsSteps(ctx: Ctx)
    requires ValidCtx(ctx)
    ensures RowsOfRunIn(ctx)(Init(ctx)) && StepsKeep(ctx, RowsOfRunIn(ctx))
  {
    forall st, q | 0 <= q < |ctx.providers| && RowsOfRunIn(ctx)(st)
      ensures RowsOfRunIn(ctx)(StartProvider(ctx, st, q))
    {
    }
    forall st, q, t | 0 <= q < |ctx.providers| && 0 <= t < |ctx.samples| && RowsOfRunIn(ctx)(st)
      ensures RowsOfRunIn(ctx)(Process(ctx, st, q, t))
    {
      ProcessRows(ctx, st, q, t);
    }
  }

  lemma BeforeRows(ctx: Ctx, p: nat)
    requires ValidCtx(ctx) && p <= |ctx.providers|
    ensures RowsOfRun(ctx, Before(ctx, p).rows)
  {
    RowsSteps(ctx);
    BeforeInduct(ctx, RowsOfRunIn(ctx), p);
  }

  /** The provider names of a run are non-empty and hold no colon. */
  lemma {:induction false} NamesWithoutColon(providers: seq<ProviderConfig>)
    ensures forall n :: n in Names(providers) ==> n != "" && ':' !in n
    decreases |providers|
  {
    if |providers| > 0 {
      NamesWithoutColon(providers[..|providers| - 1]);
    }
  }

  /** Scoring a run that did not crash with its own summary: every system
      is `"<provider>:<model>"` for a provider of the run, the report counts
      as many rows as the summary counts requests, and, since the summary
      keys its counters by the bare provider name, the scorer finds no error
      count for any system and reports 0 errors for each, whatever the
      summary's totals. */
  lemma ScoredRun(ctx: Ctx)
    requires ValidCtx(ctx) && !RunAll(ctx).status.Crashed?
    ensures var st := RunAll(ctx);
      var summary := SummaryOf(ctx, st);
      var r := ScoreOf(st.rows, Some(summary));
      && r.totalRows == summary.totalRequests
      && r.status == summary.status
      && (forall id :: id in r.providers ==>
            exists p :: 0 <= p < |ctx.providers| && id == NameOf(ctx, p) + ":" + ctx.providers[p].model)
      && (forall id :: id in r.providers ==> r.providers[id].errors == 0)
  {
    var st := RunAll(ctx);
    var summary := SummaryOf(ctx, st);
    RunTotals(ctx);
    BeforeRows(ctx, |ctx.providers|);
    ReportSystems(st.rows, Some(summary));
    SystemsOfRun(ctx, st.rows, Some(summary));
    NoSystemIds(ctx, st.rows);
    NamesWithoutColon(ctx.providers);
    NoSystemIdNoErrors(st.rows, summary);
  }

  /** Every system scored from rows of the run is a provider of the run with
      its model. */
  lemma SystemsOfRun(ctx: Ctx, rows: seq<ResultRow>, summary: Option<Summary>)
    requires ValidCtx(ctx) && RowsOfRun(ctx, rows)
    ensures forall id :: id in ScoreOf(rows, summary).providers ==>
      exists p :: 0 <= p < |ctx.providers| && id == NameOf(ctx, p) + ":" + ctx.providers[p].model
  {
    ReportSystems(rows, summary);
    forall id | id in ScoreOf(rows, summary).providers
      ensures exists p :: 0 <= p < |ctx.providers| && id == NameOf(ctx, p) + ":" + ctx.providers[p].model
    {
      var k :| 0 <= k < |rows| && ResolveSystemId(rows[k]) == id;
      RowSystem(ctx, rows[k]);
    }
  }

  /** The system of a row of the run is its provider with its model. */
  lemma RowSystem(ctx: Ctx, r: ResultRow)
    requires ValidCtx(ctx) && RowOfRun(ctx, r)
    ensures exists p :: 0 <= p < |ctx.providers| && ResolveSystemId(r) == NameOf(ctx, p) + ":" + ctx.providers[p].model
  {
    var p: nat, s: nat :| p < |ctx.providers| && s < |ctx.samples| && RowOfPair(ctx, p, s, r);
    assert ResolveSystemId(r) == NameOf(ctx, p) + ":" + ctx.providers[p].model;
  }

  /** The runner writes no system id. */
  lemma NoSystemIds(ctx: Ctx, rows: seq<ResultRow>)
    requires ValidCtx(ctx) && RowsOfRun(ctx, rows)
    ensures forall k :: 0 <= k < |rows| ==> rows[k].systemId.None?
  {
    forall k | 0 <= k < |rows| ensures rows[k].systemId.None? {
      assert RowOfRun(ctx, rows[k]);
      var p: nat, s: nat :| p < |ctx.providers| && s < |ctx.samples| && RowOfPair(ctx, p, s, rows[k]);
    }
  }
}
