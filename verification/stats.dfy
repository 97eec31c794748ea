/** Statistics over a scored run (src/llm_eval/stats.py): the Wilson
    interval of each system's accuracy, and the matched-pairs sign test
    between every two systems. */
module Stats {
  import opened Wrappers
  import opened Text
  import opened Sums
  import opened Storage
  import opened Scoring
  import opened Binomial

  // ----- The Wilson score interval -----

  datatype Interval = Interval(low: real, high: real)

  /** `math.sqrt` of a negative number raises `ValueError`. */
  datatype MathError = MathDomainError

  const DefaultZ: real := 1.96

  function MaxReal(a: real, b: real): real {
    if a >= b then a else b
  }

  function MinReal(a: real, b: real): real {
    if a <= b then a else b
  }

  function Proportion(successes: int, total: int): real
    requires total > 0
  {
    successes as real / total as real
  }

  function Denominator(total: int, z: real): (d: real)
    requires total > 0
    ensures d >= 1.0
  {
    assert z * z >= 0.0;
    1.0 + z * z / total as real
  }

  function Center(successes: int, total: int, z: real): real
    requires total > 0
  {
    (Proportion(successes, total) + z * z / (2.0 * total as real)) / Denominator(total, z)
  }

  /** The argument of the square root. */
  function Radicand(successes: int, total: int, z: real): real
    requires total > 0
  {
    var p := Proportion(successes, total);
    p * (1.0 - p) / total as real + z * z / (4.0 * total as real * total as real)
  }

  /** `wilson_confidence_interval`; `sqrt` stands for `math.sqrt`. The
      interval around the centre is clamped to [0, 1]. */
  function Wilson(successes: int, total: int, z: real, sqrt: real -> real): (r: Result<Interval, MathError>)
    ensures total <= 0 ==> r == Ok(Interval(0.0, 0.0))
    ensures r.Err? <==> total > 0 && Radicand(successes, total, z) < 0.0
    ensures r.Ok? ==> 0.0 <= r.value.low && r.value.high <= 1.0
  {
    if total <= 0 then Ok(Interval(0.0, 0.0))
    else
      var rad := Radicand(successes, total, z);
      if rad < 0.0 then Err(MathDomainError)
      else
        var center := Center(successes, total, z);
        var margin := (z / Denominator(total, z)) * sqrt(rad);
        Ok(Interval(MaxReal(0.0, center - margin), MinReal(1.0, center + margin)))
  }

  /** For a proportion the square root is always defined. */
  lemma RadicandNonNegative(successes: int, total: int, z: real)
    requires 0 <= successes <= total && total > 0
    ensures Radicand(successes, total, z) >= 0.0
  {
    var p := Proportion(successes, total);
    var n := total as real;
    assert 0.0 <= p <= 1.0 by {
      assert successes as real <= n;
    }
    assert p * (1.0 - p) >= 0.0;
    assert z * z >= 0.0;
    assert 4.0 * n * n > 0.0;
  }

  lemma TwiceHalf(a: real, n: real)
    requires n > 0.0
    ensures 2.0 * (a / (2.0 * n)) == a / n
  {
    var x := a / (2.0 * n);
    assert x * (2.0 * n) == a;
    assert (2.0 * x) * n == a;
  }

  lemma QuotientInUnit(x: real, d: real)
    requires d >= 1.0 && 0.0 <= x <= d
    ensures 0.0 <= x / d <= 1.0
  {
    var c := x / d;
    assert c * d == x;
  }

  /** The centre of the interval of a proportion lies in [0, 1]. */
  lemma CenterInUnit(successes: int, total: int, z: real)
    requires 0 <= successes <= total && total > 0
    ensures 0.0 <= Center(successes, total, z) <= 1.0
  {
    var p := Proportion(successes, total);
    assert 0.0 <= p <= 1.0 by {
      assert successes as real <= total as real;
    }
    var n := total as real;
    var half := z * z / (2.0 * n);
    var d := Denominator(total, z);
    assert half >= 0.0 by {
      assert z * z >= 0.0;
    }
    assert d == 1.0 + 2.0 * half by {
      TwiceHalf(z * z, n);
    }
    assert p + half <= d;
    QuotientInUnit(p + half, d);
  }

  /** The test's expectation: for a proportion, with a non-negative `z` and
      a square root that returns a non-negative number, the interval is
      defined and `0 <= low <= high <= 1`. */
  lemma WilsonOrdered(successes: int, total: int, z: real, sqrt: real -> real)
    requires 0 <= successes <= total && total > 0 && z >= 0.0
    requires sqrt(Radicand(successes, total, z)) >= 0.0
    ensures Wilson(successes, total, z, sqrt).Ok?
    ensures var iv := Wilson(successes, total, z, sqrt).value;
      0.0 <= iv.low <= iv.high <= 1.0
  {
    RadicandNonNegative(successes, total, z);
    CenterInUnit(successes, total, z);
    var d := Denominator(total, z);
    var root := sqrt(Radicand(successes, total, z));
    assert z / d >= 0.0;
    assert (z / d) * root >= 0.0;
  }

  // ----- The exact two-sided sign test -----

  /** `Choose(n, i)` summed over the `i < m` whose coefficient is at most
      `t`: with `t = Choose(n, k)`, the outcomes no more likely than `k`. */
  function TailCount(n: nat, t: nat, m: nat): nat
    decreases m
  {
    if m == 0 then 0
    else TailCount(n, t, m - 1) + (if Choose(n, m - 1) <= t then Choose(n, m - 1) else 0)
  }

  /** `_binomial_two_sided_p_value(k, n)` at `p = 1/2`, exactly: each
      outcome `i` has probability `Choose(n, i) / 2^n`, and the outcomes at
      most as likely as `k` are summed and capped at 1. */
  function PValue(k: nat, n: nat): (p: real)
    ensures 0.0 <= p <= 1.0
  {
    if n == 0 then 1.0
    else
      FractionNonNegative(TailCount(n, Choose(n, k), n + 1), Pow2(n));
      MinReal(1.0, TailCount(n, Choose(n, k), n + 1) as real / Pow2(n) as real)
  }

  lemma FractionNonNegative(a: nat, b: nat)
    requires b > 0
    ensures a as real / b as real >= 0.0
  {
  }

  /** Dividing by a positive number keeps the order. */
  lemma FractionOrder(a: real, b: real, t: real)
    requires t > 0.0
    ensures a / t <= b / t <==> a <= b
  {
    var x := a / t;
    var y := b / t;
    assert x * t == a && y * t == b;
    if a <= b {
      assert (y - x) * t == b - a;
    } else {
      assert (x - y) * t == a - b;
    }
  }

  lemma FractionSum(a: real, b: real, t: real)
    requires t > 0.0
    ensures a / t + b / t == (a + b) / t
  {
    var x := a / t;
    var y := b / t;
    assert x * t == a && y * t == b;
    assert (x + y) * t == a + b;
  }

  /** `_binomial_two_sided_p_value`: one pass over the outcomes `0..n`. */
  method BinomialTwoSidedPValue(k: nat, n: nat) returns (p: real)
    ensures p == PValue(k, n)
  {
    if n == 0 {
      return 1.0;
    }
    var total := Pow2(n) as real;
    var observed := Choose(n, k) as real / total;
    var cumulative := 0.0;
    for i := 0 to n + 1
      invariant cumulative == TailCount(n, Choose(n, k), i) as real / total
    {
      var prob := Choose(n, i) as real / total;
      FractionOrder(Choose(n, i) as real, Choose(n, k) as real, total);
      if prob <= observed {
        FractionSum(TailCount(n, Choose(n, k), i) as real, Choose(n, i) as real, total);
        cumulative := cumulative + prob;
      }
    }
    p := MinReal(1.0, cumulative);
  }

  /** The tail count holds every admitted coefficient below `m`. */
  lemma {:induction false} TailIncludes(n: nat, t: nat, m: nat, i: nat)
    requires i < m && Choose(n, i) <= t
    ensures TailCount(n, t, m) >= Choose(n, i)
    decreases m
  {
    if i < m - 1 {
      TailIncludes(n, t, m - 1, i);
    }
  }

  /** When every coefficient below `m` is admitted, the tail count is the
      partial row sum. */
  lemma {:induction false} TailAll(n: nat, t: nat, m: nat)
    requires forall i :: 0 <= i < m ==> Choose(n, i) <= t
    ensures TailCount(n, t, m) == RowSum(n, m)
    decreases m
  {
    if m > 0 {
      TailAll(n, t, m - 1);
    }
  }

  /** For an outcome `k <= n` the p-value is positive and at most 1. */
  lemma PValueBounds(k: nat, n: nat)
    requires k <= n
    ensures 0.0 < PValue(k, n) <= 1.0
  {
    if n > 0 {
      var c := TailCount(n, Choose(n, k), n + 1);
      TailIncludes(n, Choose(n, k), n + 1, k);
      ChoosePositive(n, k);
      assert c as real / Pow2(n) as real > 0.0;
    }
  }

  /** An even split is the most likely outcome: its p-value is exactly 1. */
  lemma PValueTie(k: nat, n: nat)
    requires n == 2 * k
    ensures PValue(k, n) == 1.0
  {
    if n > 0 {
      assert n / 2 == k;
      forall i | 0 <= i < n + 1
        ensures Choose(n, i) <= Choose(n, k)
      {
        ChooseMiddleIsMax(n, i);
      }
      TailAll(n, Choose(n, k), n + 1);
      RowSumPow2(n);
      assert Pow2(n) as real / Pow2(n) as real == 1.0;
    }
  }

  /** The test sees the same p-value from either side: `k` successes and
      `n - k` successes are equally likely. */
  lemma PValueSymmetric(k: nat, n: nat)
    requires k <= n
    ensures PValue(k, n) == PValue(n - k, n)
  {
    ChooseSymmetric(n, k);
  }

  // ----- add_confidence_intervals -----

  ghost predicate ListedIn(ids: seq<string>, providers: map<string, SystemScore>) {
    forall k :: 0 <= k < |ids| ==> ids[k] in providers
  }

  function IntervalOf(m: SystemScore, sqrt: real -> real): Result<Interval, MathError> {
    Wilson(m.correct, m.attempted, DefaultZ, sqrt)
  }

  /** The `accuracy_ci95` entries after visiting `ids` in order, starting
      from `ci`, and the error that stops the visit, if any. */
  function Attach(ci: map<string, Interval>, providers: map<string, SystemScore>, ids: seq<string>,
                  sqrt: real -> real): (r: (map<string, Interval>, Option<MathError>))
    requires ListedIn(ids, providers)
    decreases |ids|
  {
    if ids == [] then (ci, None)
    else
      match IntervalOf(providers[ids[0]], sqrt)
      case Err(e) => (ci, Some(e))
      case Ok(iv) => Attach(ci[ids[0] := iv], providers, ids[1..], sqrt)
  }

  /** When every interval is defined, the visit ends without error, every
      listed system gets its interval and every other entry is kept. */
  lemma {:induction false} AttachAll(ci: map<string, Interval>, providers: map<string, SystemScore>,
                                     ids: seq<string>, sqrt: real -> real)
    requires ListedIn(ids, providers)
    requires forall k :: 0 <= k < |ids| ==> IntervalOf(providers[ids[k]], sqrt).Ok?
    ensures var r := Attach(ci, providers, ids, sqrt);
      && r.1 == None
      && (forall id :: id in r.0 <==> id in ci || id in ids)
      && (forall id :: id in ids ==> r.0[id] == IntervalOf(providers[id], sqrt).value)
      && (forall id :: id in ci && id !in ids ==> r.0[id] == ci[id])
    decreases |ids|
  {
    if ids != [] {
      var iv := IntervalOf(providers[ids[0]], sqrt).value;
      assert forall k :: 0 <= k < |ids[1..]| ==> ids[1..][k] == ids[k + 1];
      AttachAll(ci[ids[0] := iv], providers, ids[1..], sqrt);
      forall id | id in ids
        ensures id == ids[0] || id in ids[1..]
      {
        var k :| 0 <= k < |ids| && ids[k] == id;
        if k > 0 {
          assert ids[1..][k - 1] == id;
        }
      }
    }
  }

  /** The visit stops with an error exactly when some listed system's
      interval is undefined. */
  lemma {:induction false} AttachFails(ci: map<string, Interval>, providers: map<string, SystemScore>,
                                       ids: seq<string>, sqrt: real -> real)
    requires ListedIn(ids, providers)
    ensures Attach(ci, providers, ids, sqrt).1.Some? <==>
      exists k :: 0 <= k < |ids| && IntervalOf(providers[ids[k]], sqrt).Err?
    decreases |ids|
  {
    if ids != [] {
      var iv := IntervalOf(providers[ids[0]], sqrt);
      if iv.Ok? {
        AttachFails(ci[ids[0] := iv.value], providers, ids[1..], sqrt);
        if exists k :: 0 <= k < |ids| && IntervalOf(providers[ids[k]], sqrt).Err? {
          var k :| 0 <= k < |ids| && IntervalOf(providers[ids[k]], sqrt).Err?;
          assert ids[1..][k - 1] == ids[k];
        }
        if exists k :: 0 <= k < |ids[1..]| && IntervalOf(providers[ids[1..][k]], sqrt).Err? {
          var k :| 0 <= k < |ids[1..]| && IntervalOf(providers[ids[1..][k]], sqrt).Err?;
          assert ids[k + 1] == ids[1..][k];
        }
      } else {
        assert IntervalOf(providers[ids[0]], sqrt).Err?;
      }
    }
  }

  /** A square root that returns a non-negative number for a non-negative
      argument, as `math.sqrt` does. */
  ghost predicate RootLike(sqrt: real -> real) {
    forall x :: x >= 0.0 ==> sqrt(x) >= 0.0
  }

  /** On a report of `score_results`, every system gets an interval with
      `0 <= low <= high <= 1`, and the visit ends without error. */
  lemma ScoredIntervals(rows: seq<ResultRow>, summary: Option<Summary>, sqrt: real -> real)
    requires RootLike(sqrt)
    ensures var report := ScoreOf(rows, summary);
      && ListedIn(report.ids, report.providers)
      && var r := Attach(map[], report.providers, report.ids, sqrt);
      && r.1 == None
      && (forall id :: id in r.0 <==> id in report.providers)
      && (forall id :: id in r.0 ==> 0.0 <= r.0[id].low <= r.0[id].high <= 1.0)
  {
    var report := ScoreOf(rows, summary);
    ReportSystems(rows, summary);
    forall id | id in report.providers
      ensures IntervalOf(report.providers[id], sqrt).Ok?
      ensures var iv := IntervalOf(report.providers[id], sqrt).value; 0.0 <= iv.low <= iv.high <= 1.0
    {
      ReportSystem(rows, summary, id);
      var m := report.providers[id];
      RadicandNonNegative(m.correct, m.attempted, DefaultZ);
      WilsonOrdered(m.correct, m.attempted, DefaultZ, sqrt);
    }
    assert ListedIn(report.ids, report.providers) by {
      assert forall k :: 0 <= k < |report.ids| ==> report.ids[k] in report.ids;
    }
    AttachAll(map[], report.providers, report.ids, sqrt);
  }

  /** A scored report being annotated in place: `intervals[id]` is the
      `accuracy_ci95` entry of `providers[id]`. */
  class Scored {
    var report: ScoreReport
    var intervals: map<string, Interval>

    constructor(report: ScoreReport)
      ensures this.report == report && intervals == map[]
    {
      this.report := report;
      intervals := map[];
    }

    /** `add_confidence_intervals`: visits the systems in order and sets
        each one's interval; `math.sqrt` raising stops the visit. */
    method AddConfidenceIntervals(sqrt: real -> real) returns (failure: Option<MathError>)
      requires ListedIn(report.ids, report.providers)
      modifies this
      ensures report == old(report)
      ensures (intervals, failure) == Attach(old(intervals), report.providers, report.ids, sqrt)
    {
      var i := 0;
      while i < |report.ids|
        invariant 0 <= i <= |report.ids| && report == old(report)
        invariant Attach(intervals, report.providers, report.ids[i..], sqrt)
          == Attach(old(intervals), report.providers, report.ids, sqrt)
        decreases |report.ids| - i
      {
        var id := report.ids[i];
        assert report.ids[i..][1..] == report.ids[i + 1..];
        var m := report.providers[id];
        var iv := Wilson(m.correct, m.attempted, DefaultZ, sqrt);
        if iv.Err? {
          return Some(iv.error);
        }
        intervals := intervals[id := iv.value];
        i := i + 1;
      }
      assert report.ids[i..] == [];
      failure := None;
    }
  }

  // ----- pairwise_significance: the outcomes by system and sample -----

  /** The system label of `pairwise_significance`: a truthy `system_id`, or
      else `"<provider>:<model>"`, where a missing field prints as "None". */
  function ProviderLabel(row: ResultRow): string {
    if row.systemId.Some? && row.systemId.value != "" then row.systemId.value
    else row.provider.GetOr("None") + ":" + row.model.GetOr("None")
  }

  /** `str(row.get("sample_id"))`. */
  function SampleLabel(row: ResultRow): string {
    row.sampleId.GetOr("None")
  }

  /** One system's outcomes by sample id, the ids in first-seen order. */
  datatype Outcomes = Outcomes(samples: seq<string>, correct: map<string, bool>)

  /** `by_provider_sample`, the labels in first-seen order. */
  datatype Grouping = Grouping(labels: seq<string>, groups: map<string, Outcomes>)

  function Record(o: Outcomes, sample: string, correct: bool): Outcomes {
    Outcomes(if sample in o.correct then o.samples else o.samples + [sample], o.correct[sample := correct])
  }

  function GroupRow(g: Grouping, row: ResultRow): Grouping {
    var system := ProviderLabel(row);
    var seen := if system in g.groups then g.groups[system] else Outcomes([], map[]);
    Grouping(if system in g.groups then g.labels else g.labels + [system],
             g.groups[system := Record(seen, SampleLabel(row), IsCorrectOf(row))])
  }

  function GroupRows(rows: seq<ResultRow>): Grouping
    decreases |rows|
  {
    if rows == [] then Grouping([], map[])
    else GroupRow(GroupRows(rows[..|rows| - 1]), rows[|rows| - 1])
  }

  ghost predicate OutcomesOk(o: Outcomes) {
    Distinct(o.samples) && (forall x :: x in o.samples <==> x in o.correct)
  }

  /** Each label and each sample id is listed once, and exactly the keys
      are listed. */
  ghost predicate GroupingOk(g: Grouping) {
    && Distinct(g.labels)
    && (forall l :: l in g.labels <==> l in g.groups)
    && (forall l :: l in g.groups ==> OutcomesOk(g.groups[l]))
  }

  lemma GroupRowOk(g: Grouping, row: ResultRow)
    requires GroupingOk(g)
    ensures GroupingOk(GroupRow(g, row))
  {
    var system := ProviderLabel(row);
    var seen := if system in g.groups then g.groups[system] else Outcomes([], map[]);
    if system !in g.groups {
      AppendDistinct(g.labels, system);
    }
    if SampleLabel(row) !in seen.correct {
      AppendDistinct(seen.samples, SampleLabel(row));
    }
  }

  lemma {:induction false} GroupRowsOk(rows: seq<ResultRow>)
    ensures GroupingOk(GroupRows(rows))
    decreases |rows|
  {
    if rows != [] {
      GroupRowsOk(rows[..|rows| - 1]);
      GroupRowOk(GroupRows(rows[..|rows| - 1]), rows[|rows| - 1]);
    }
  }

  predicate Matches(row: ResultRow, system: string, sample: string) {
    ProviderLabel(row) == system && SampleLabel(row) == sample
  }

  ghost predicate HasLabel(rows: seq<ResultRow>, system: string) {
    exists k :: 0 <= k < |rows| && ProviderLabel(rows[k]) == system
  }

  ghost predicate HasSample(rows: seq<ResultRow>, system: string, sample: string) {
    exists k :: 0 <= k < |rows| && Matches(rows[k], system, sample)
  }

  /** The last record of `system` and `sample` says `correct`. */
  ghost predicate LastSays(rows: seq<ResultRow>, system: string, sample: string, correct: bool) {
    exists k :: 0 <= k < |rows| && Matches(rows[k], system, sample) && IsCorrectOf(rows[k]) == correct
      && forall k' :: k < k' < |rows| ==> !Matches(rows[k'], system, sample)
  }

  lemma HasLabelSnoc(rows: seq<ResultRow>, row: ResultRow, system: string)
    ensures HasLabel(rows + [row], system) <==> HasLabel(rows, system) || ProviderLabel(row) == system
  {
    var all := rows + [row];
    assert all[|rows|] == row;
    if HasLabel(all, system) && ProviderLabel(row) != system {
      var k :| 0 <= k < |all| && ProviderLabel(all[k]) == system;
      assert all[k] == rows[k];
    }
    if HasLabel(rows, system) {
      var k :| 0 <= k < |rows| && ProviderLabel(rows[k]) == system;
      assert all[k] == rows[k];
    }
  }

  lemma HasSampleSnoc(rows: seq<ResultRow>, row: ResultRow, system: string, sample: string)
    ensures HasSample(rows + [row], system, sample) <==> HasSample(rows, system, sample) || Matches(row, system, sample)
  {
    var all := rows + [row];
    assert all[|rows|] == row;
    if HasSample(all, system, sample) && !Matches(row, system, sample) {
      var k :| 0 <= k < |all| && Matches(all[k], system, sample);
      assert all[k] == rows[k];
    }
    if HasSample(rows, system, sample) {
      var k :| 0 <= k < |rows| && Matches(rows[k], system, sample);
      assert all[k] == rows[k];
    }
  }

  /** A record that matches becomes the last one. */
  lemma LastSaysMatching(rows: seq<ResultRow>, row: ResultRow, system: string, sample: string, correct: bool)
    requires Matches(row, system, sample)
    ensures LastSays(rows + [row], system, sample, correct) <==> IsCorrectOf(row) == correct
  {
    var all := rows + [row];
    var n := |rows|;
    assert all[n] == row;
    if LastSays(all, system, sample, correct) {
      var k :| 0 <= k < |all| && Matches(all[k], system, sample) && IsCorrectOf(all[k]) == correct
        && forall k' :: k < k' < |all| ==> !Matches(all[k'], system, sample);
      assert k == n;
    }
  }

  /** A record that does not match leaves the last one in place. */
  lemma LastSaysOther(rows: seq<ResultRow>, row: ResultRow, system: string, sample: string, correct: bool)
    requires !Matches(row, system, sample)
    ensures LastSays(rows + [row], system, sample, correct) <==> LastSays(rows, system, sample, correct)
  {
    var all := rows + [row];
    var n := |rows|;
    assert all[n] == row;
    if LastSays(all, system, sample, correct) {
      var k :| 0 <= k < |all| && Matches(all[k], system, sample) && IsCorrectOf(all[k]) == correct
        && forall k' :: k < k' < |all| ==> !Matches(all[k'], system, sample);
      assert k < n && all[k] == rows[k];
      forall k' | k < k' < n
        ensures !Matches(rows[k'], system, sample)
      {
        assert all[k'] == rows[k'];
      }
    }
    if LastSays(rows, system, sample, correct) {
      var k :| 0 <= k < |rows| && Matches(rows[k], system, sample) && IsCorrectOf(rows[k]) == correct
        && forall k' :: k < k' < |rows| ==> !Matches(rows[k'], system, sample);
      assert all[k] == rows[k];
      forall k' | k < k' < |all|
        ensures !Matches(all[k'], system, sample)
      {
        if k' < n {
          assert all[k'] == rows[k'];
        }
      }
    }
  }

  /** `by_provider_sample` has a label exactly when some record has it, a
      sample under it exactly when some record has both, and the outcome
      of the last such record: later records overwrite earlier ones. */
  lemma {:induction false} GroupRowsMeaning(rows: seq<ResultRow>, system: string, sample: string)
    ensures var g := GroupRows(rows);
      && (system in g.groups <==> HasLabel(rows, system))
      && (system in g.groups && sample in g.groups[system].correct <==> HasSample(rows, system, sample))
      && (system in g.groups && sample in g.groups[system].correct ==>
            LastSays(rows, system, sample, g.groups[system].correct[sample]))
    decreases |rows|
  {
    if rows != [] {
      var init := rows[..|rows| - 1];
      var row := rows[|rows| - 1];
      assert rows == init + [row];
      GroupRowsMeaning(init, system, sample);
      var g := GroupRows(rows);
      HasLabelSnoc(init, row, system);
      HasSampleSnoc(init, row, system, sample);
      if system in g.groups && sample in g.groups[system].correct {
        var correct := g.groups[system].correct[sample];
        if Matches(row, system, sample) {
          LastSaysMatching(init, row, system, sample, correct);
        } else {
          LastSaysOther(init, row, system, sample, correct);
        }
      }
    }
  }

  /** `pairwise_significance`'s first loop. */
  method GroupResults(results: seq<ResultRow>) returns (g: Grouping)
    ensures g == GroupRows(results)
  {
    g := Grouping([], map[]);
    for i := 0 to |results|
      invariant g == GroupRows(results[..i])
    {
      var row := results[i];
      var system := ProviderLabel(row);
      var samples := if system in g.groups then g.groups[system] else Outcomes([], map[]);
      var labels := if system in g.groups then g.labels else g.labels + [system];
      var sample := SampleLabel(row);
      var ids := if sample in samples.correct then samples.samples else samples.samples + [sample];
      g := Grouping(labels, g.groups[system := Outcomes(ids, samples.correct[sample := IsCorrectOf(row)])]);
      assert results[..i + 1][..i] == results[..i];
    }
    assert results[..|results|] == results;
  }

  // ----- pairwise_significance: one pair of systems -----

  datatype WinTally = WinTally(winsLeft: nat, winsRight: nat, ties: nat)

  function TallyStep(t: WinTally, left: bool, right: bool): WinTally {
    if left == right then t.(ties := t.ties + 1)
    else if left then t.(winsLeft := t.winsLeft + 1)
    else t.(winsRight := t.winsRight + 1)
  }

  ghost predicate SharedIn(shared: seq<string>, left: map<string, bool>, right: map<string, bool>) {
    forall k :: 0 <= k < |shared| ==> shared[k] in left && shared[k] in right
  }

  /** The wins of each side and the ties over `shared`, in order. */
  function TallyOf(shared: seq<string>, left: map<string, bool>, right: map<string, bool>): WinTally
    requires SharedIn(shared, left, right)
    decreases |shared|
  {
    if shared == [] then WinTally(0, 0, 0)
    else
      var x := shared[|shared| - 1];
      TallyStep(TallyOf(shared[..|shared| - 1], left, right), left[x], right[x])
  }

  predicate LeftWins(left: bool, right: bool) {
    left && !right
  }

  predicate RightWins(left: bool, right: bool) {
    right && !left
  }

  predicate Tie(left: bool, right: bool) {
    left == right
  }

  /** The shared samples on which the two outcomes satisfy `f`. */
  ghost function Where(shared: seq<string>, left: map<string, bool>, right: map<string, bool>,
                       f: (bool, bool) -> bool): set<string> {
    set x | x in shared && x in left && x in right && f(left[x], right[x])
  }

  lemma WhereSnoc(shared: seq<string>, x: string, left: map<string, bool>, right: map<string, bool>,
                  f: (bool, bool) -> bool)
    requires x !in shared && x in left && x in right
    ensures |Where(shared + [x], left, right, f)| ==
      |Where(shared, left, right, f)| + (if f(left[x], right[x]) then 1 else 0)
  {
    var before := Where(shared, left, right, f);
    if f(left[x], right[x]) {
      assert Where(shared + [x], left, right, f) == before + {x};
    } else {
      assert Where(shared + [x], left, right, f) == before;
    }
  }

  /** Each counter is the number of distinct shared samples of its kind:
      the left right and the right wrong, the reverse, or both alike. */
  lemma {:induction false} TallyCounts(shared: seq<string>, left: map<string, bool>, right: map<string, bool>)
    requires SharedIn(shared, left, right) && Distinct(shared)
    ensures var t := TallyOf(shared, left, right);
      && t.winsLeft == |Where(shared, left, right, LeftWins)|
      && t.winsRight == |Where(shared, left, right, RightWins)|
      && t.ties == |Where(shared, left, right, Tie)|
      && t.winsLeft + t.winsRight + t.ties == |shared|
    decreases |shared|
  {
    if shared != [] {
      var init := shared[..|shared| - 1];
      var x := shared[|shared| - 1];
      assert shared == init + [x];
      assert forall k :: 0 <= k < |init| ==> init[k] == shared[k] && shared[k] != x;
      TallyCounts(init, left, right);
      WhereSnoc(init, x, left, right, LeftWins);
      WhereSnoc(init, x, left, right, RightWins);
      WhereSnoc(init, x, left, right, Tie);
    }
  }

  /** Exchanging the sides exchanges the wins. */
  lemma {:induction false} TallySwap(shared: seq<string>, left: map<string, bool>, right: map<string, bool>)
    requires SharedIn(shared, left, right)
    ensures var t := TallyOf(shared, left, right);
      TallyOf(shared, right, left) == WinTally(t.winsRight, t.winsLeft, t.ties)
    decreases |shared|
  {
    if shared != [] {
      TallySwap(shared[..|shared| - 1], left, right);
    }
  }

  /** `pairwise_significance`'s loop over the shared samples. */
  method TallyShared(shared: seq<string>, left: map<string, bool>, right: map<string, bool>)
    returns (winsLeft: nat, winsRight: nat, ties: nat)
    requires SharedIn(shared, left, right)
    ensures WinTally(winsLeft, winsRight, ties) == TallyOf(shared, left, right)
  {
    winsLeft, winsRight, ties := 0, 0, 0;
    for i := 0 to |shared|
      invariant WinTally(winsLeft, winsRight, ties) == TallyOf(shared[..i], left, right)
    {
      assert shared[..i + 1][..i] == shared[..i];
      var leftCorrect := left[shared[i]];
      var rightCorrect := right[shared[i]];
      if leftCorrect == rightCorrect {
        ties := ties + 1;
      } else if leftCorrect && !rightCorrect {
        winsLeft := winsLeft + 1;
      } else if rightCorrect && !leftCorrect {
        winsRight := winsRight + 1;
      }
    }
    assert shared[..|shared|] == shared;
  }

  /** The sample ids of `samples` that both systems have, in order. */
  function Common(samples: seq<string>, left: map<string, bool>, right: map<string, bool>): (r: seq<string>)
    ensures forall x :: x in r <==> x in samples && x in left && x in right
  {
    if samples == [] then []
    else
      assert samples == [samples[0]] + samples[1..];
      (if samples[0] in left && samples[0] in right then [samples[0]] else [])
        + Common(samples[1..], left, right)
  }

  /** `sorted(set(left_samples) & set(right_samples))`. */
  function SharedIds(left: Outcomes, right: Outcomes): (r: seq<string>)
    ensures SharedIn(r, left.correct, right.correct)
  {
    var r := Sort(Common(left.samples, left.correct, right.correct));
    assert forall k :: 0 <= k < |r| ==> r[k] in r;
    r
  }

  /** With well-formed outcomes, the shared ids are the sorted samples
      both systems have, and the same from either side. */
  lemma SharedIdsMeaning(left: Outcomes, right: Outcomes)
    requires OutcomesOk(left) && OutcomesOk(right)
    ensures var r := SharedIds(left, right);
      && StrictlySorted(r)
      && (forall x :: x in r <==> x in left.correct && x in right.correct)
      && r == SharedIds(right, left)
  {
    SortedUnique(SharedIds(left, right), SharedIds(right, left));
  }

  function MaxNat(a: nat, b: nat): nat {
    if a >= b then a else b
  }

  /** One entry of `comparisons`. */
  datatype Comparison = Comparison(
    providerA: string,
    providerB: string,
    winsA: nat,
    winsB: nat,
    ties: nat,
    nonTies: nat,
    pValue: real)

  /** The tally of `a` against `b` over the samples both answered. */
  function SharedTallyOf(left: Outcomes, right: Outcomes): WinTally {
    TallyOf(SharedIds(left, right), left.correct, right.correct)
  }

  /** The comparison record of a tally. */
  function CompareWith(a: string, b: string, t: WinTally): Comparison {
    var nonTies := t.winsLeft + t.winsRight;
    Comparison(a, b, t.winsLeft, t.winsRight, t.ties, nonTies, PValue(MaxNat(t.winsLeft, t.winsRight), nonTies))
  }

  function Compare(a: string, b: string, g: Grouping): Comparison
    requires a in g.groups && b in g.groups
  {
    CompareWith(a, b, SharedTallyOf(g.groups[a], g.groups[b]))
  }

  /** The tally over the shared samples of two well-formed outcomes. */
  lemma SharedTally(left: Outcomes, right: Outcomes)
    requires OutcomesOk(left) && OutcomesOk(right)
    ensures var shared := SharedIds(left, right);
      var t := TallyOf(shared, left.correct, right.correct);
      && t.winsLeft == |Where(shared, left.correct, right.correct, LeftWins)|
      && t.winsRight == |Where(shared, left.correct, right.correct, RightWins)|
      && t.ties == |Where(shared, left.correct, right.correct, Tie)|
      && t.winsLeft + t.winsRight + t.ties == |set x | x in left.correct && x in right.correct|
  {
    var shared := SharedIds(left, right);
    SharedIdsMeaning(left, right);
    SortedIsDistinct(shared);
    TallyCounts(shared, left.correct, right.correct);
    DistinctCardinality(shared);
    assert (set x | x in shared) == (set x | x in left.correct && x in right.correct);
  }

  /** The p-value of a tally. */
  lemma TallyPValue(t: WinTally)
    ensures var n := t.winsLeft + t.winsRight;
      var p := PValue(MaxNat(t.winsLeft, t.winsRight), n);
      && 0.0 < p <= 1.0
      && (t.winsLeft == t.winsRight ==> p == 1.0)
  {
    PValueBounds(MaxNat(t.winsLeft, t.winsRight), t.winsLeft + t.winsRight);
    if t.winsLeft == t.winsRight {
      PValueTie(t.winsLeft, t.winsLeft + t.winsRight);
    }
  }

  /** A comparison counts each sample both systems answered once: the
      wins of each side and the ties add up to those samples; its p-value
      is in (0, 1], and exactly 1 when the wins are even. */
  lemma CompareFacts(a: string, b: string, g: Grouping)
    requires GroupingOk(g) && a in g.groups && b in g.groups
    ensures var c := Compare(a, b, g);
      var left := g.groups[a].correct;
      var right := g.groups[b].correct;
      var shared := SharedIds(g.groups[a], g.groups[b]);
      && c.providerA == a && c.providerB == b
      && c.winsA == |Where(shared, left, right, LeftWins)|
      && c.winsB == |Where(shared, left, right, RightWins)|
      && c.ties == |Where(shared, left, right, Tie)|
      && c.winsA + c.winsB + c.ties == |set x | x in left && x in right|
      && c.nonTies == c.winsA + c.winsB
      && 0.0 < c.pValue <= 1.0
      && (c.winsA == c.winsB ==> c.pValue == 1.0)
  {
    var left := g.groups[a];
    var right := g.groups[b];
    var t := SharedTallyOf(left, right);
    SharedTally(left, right);
    CompareWithFacts(a, b, t);
  }

  /** The comparison record of a tally carries its counts, and its
      p-value is a probability, 1 on a tie. */
  lemma CompareWithFacts(a: string, b: string, t: WinTally)
    ensures var c := CompareWith(a, b, t);
      && c.providerA == a && c.providerB == b
      && c.winsA == t.winsLeft && c.winsB == t.winsRight && c.ties == t.ties
      && c.nonTies == c.winsA + c.winsB
      && 0.0 < c.pValue <= 1.0
      && (c.winsA == c.winsB ==> c.pValue == 1.0)
  {
    TallyPValue(t);
  }

  /** Exchanging the two systems exchanges their wins. */
  lemma SwappedTally(left: Outcomes, right: Outcomes)
    requires OutcomesOk(left) && OutcomesOk(right)
    ensures var t := SharedTallyOf(left, right);
      SharedTallyOf(right, left) == WinTally(t.winsRight, t.winsLeft, t.ties)
  {
    SharedIdsMeaning(left, right);
    TallySwap(SharedIds(left, right), left.correct, right.correct);
  }

  lemma CompareWithSwap(a: string, b: string, t: WinTally)
    ensures var c := CompareWith(a, b, t);
      CompareWith(b, a, WinTally(t.winsRight, t.winsLeft, t.ties))
        == Comparison(b, a, c.winsB, c.winsA, c.ties, c.nonTies, c.pValue)
  {
    assert MaxNat(t.winsRight, t.winsLeft) == MaxNat(t.winsLeft, t.winsRight);
  }

  /** Comparing the other way round exchanges the sides and the wins and
      keeps the ties and the p-value. */
  lemma CompareSwap(a: string, b: string, g: Grouping)
    requires GroupingOk(g) && a in g.groups && b in g.groups
    ensures var c := Compare(a, b, g);
      Compare(b, a, g) == Comparison(b, a, c.winsB, c.winsA, c.ties, c.nonTies, c.pValue)
  {
    var left := g.groups[a];
    var right := g.groups[b];
    assert OutcomesOk(left) && OutcomesOk(right);
    SwappedTally(left, right);
    var t := SharedTallyOf(left, right);
    CompareWithSwap(a, b, t);
  }

  // ----- pairwise_significance: all pairs -----

  ghost predicate Grouped(sorted: seq<string>, g: Grouping) {
    forall k :: 0 <= k < |sorted| ==> sorted[k] in g.groups
  }

  /** The comparisons of `sorted[i]` with each later system. */
  function RowOf(sorted: seq<string>, g: Grouping, i: nat): (r: seq<Comparison>)
    requires Grouped(sorted, g) && i < |sorted|
    ensures |r| == |sorted| - i - 1
  {
    seq(|sorted| - i - 1, j requires 0 <= j < |sorted| - i - 1 => Compare(sorted[i], sorted[i + 1 + j], g))
  }

  /** The comparisons of the first `n` systems with the later ones. */
  function RowsBelow(sorted: seq<string>, g: Grouping, n: nat): seq<Comparison>
    requires Grouped(sorted, g) && n <= |sorted|
    decreases n
  {
    if n == 0 then [] else RowsBelow(sorted, g, n - 1) + RowOf(sorted, g, n - 1)
  }

  /** The systems in sorted order, with the facts the comparisons need. */
  function SortedSystems(g: Grouping): (r: seq<string>)
    requires GroupingOk(g)
    ensures StrictlySorted(r) && Grouped(r, g)
    ensures forall x :: x in r <==> x in g.groups
    ensures |r| == |g.labels|
  {
    var r := Sort(g.labels);
    assert forall k :: 0 <= k < |r| ==> r[k] in r;
    r
  }

  /** `pairwise_significance(results)`. */
  function Pairwise(results: seq<ResultRow>): seq<Comparison> {
    var g := GroupRows(results);
    GroupRowsOk(results);
    var sorted := SortedSystems(g);
    RowsBelow(sorted, g, |sorted|)
  }

  /** The body of the inner loop: one comparison. */
  method ComparePair(left: string, right: string, g: Grouping) returns (c: Comparison)
    requires left in g.groups && right in g.groups
    ensures c == Compare(left, right, g)
  {
    var leftSamples := g.groups[left];
    var rightSamples := g.groups[right];
    var sharedIds := SharedIds(leftSamples, rightSamples);
    var winsLeft, winsRight, ties := TallyShared(sharedIds, leftSamples.correct, rightSamples.correct);
    var nonTies := winsLeft + winsRight;
    var pValue := BinomialTwoSidedPValue(MaxNat(winsLeft, winsRight), nonTies);
    c := Comparison(left, right, winsLeft, winsRight, ties, nonTies, pValue);
  }

  /** The inner loop: `providers[i]` against each later system. */
  method CompareRow(providers: seq<string>, g: Grouping, i: nat) returns (row: seq<Comparison>)
    requires Grouped(providers, g) && i < |providers|
    ensures row == RowOf(providers, g, i)
  {
    row := [];
    for j := i + 1 to |providers|
      invariant row == RowOf(providers, g, i)[..j - i - 1]
    {
      var c := ComparePair(providers[i], providers[j], g);
      row := row + [c];
      assert RowOf(providers, g, i)[..j - i] == RowOf(providers, g, i)[..j - i - 1] + [c];
    }
    assert RowOf(providers, g, i)[..|providers| - i - 1] == RowOf(providers, g, i);
  }

  /** `pairwise_significance`: the grouping loop, then the comparisons of
      every two systems in sorted order. */
  method PairwiseSignificance(results: seq<ResultRow>) returns (comparisons: seq<Comparison>)
    ensures comparisons == Pairwise(results)
  {
    var g := GroupResults(results);
    GroupRowsOk(results);
    var providers := SortedSystems(g);
    comparisons := [];
    for i := 0 to |providers|
      invariant comparisons == RowsBelow(providers, g, i)
    {
      var row := CompareRow(providers, g, i);
      comparisons := comparisons + row;
    }
  }

  lemma {:induction false} RowsBelowLength(sorted: seq<string>, g: Grouping, n: nat)
    requires Grouped(sorted, g) && n <= |sorted|
    ensures 2 * |RowsBelow(sorted, g, n)| == n * (2 * |sorted| - n - 1)
    decreases n
  {
    if n > 0 {
      RowsBelowLength(sorted, g, n - 1);
      var m := |sorted|;
      assert (n - 1) * (2 * m - (n - 1) - 1) + 2 * (m - n) == n * (2 * m - n - 1);
    }
  }

  /** The systems of a run: the labels its records resolve to. */
  ghost function Systems(results: seq<ResultRow>): set<string> {
    set k | 0 <= k < |results| :: ProviderLabel(results[k])
  }

  lemma SystemsAreGroups(results: seq<ResultRow>)
    ensures forall x :: x in Systems(results) <==> x in GroupRows(results).groups
    ensures |Systems(results)| == |GroupRows(results).labels|
  {
    var g := GroupRows(results);
    GroupRowsOk(results);
    forall x
      ensures x in Systems(results) <==> x in g.groups
    {
      GroupRowsMeaning(results, x, "");
      if x in g.groups {
        var k :| 0 <= k < |results| && ProviderLabel(results[k]) == x;
      }
    }
    DistinctCardinality(g.labels);
    assert Systems(results) == set x | x in g.labels;
  }

  /** With `k` systems there are `k * (k - 1) / 2` comparisons. */
  lemma PairwiseCount(results: seq<ResultRow>)
    ensures var k := |Systems(results)|; |Pairwise(results)| == k * (k - 1) / 2
  {
    var g := GroupRows(results);
    GroupRowsOk(results);
    var sorted := SortedSystems(g);
    SystemsAreGroups(results);
    RowsBelowLength(sorted, g, |sorted|);
  }

  /** Each entry of the first `n` rows compares a system with a later one. */
  lemma {:induction false} RowsBelowEntry(sorted: seq<string>, g: Grouping, n: nat, idx: nat)
    requires Grouped(sorted, g) && n <= |sorted| && idx < |RowsBelow(sorted, g, n)|
    ensures exists i, j :: 0 <= i < j < |sorted| && i < n && RowsBelow(sorted, g, n)[idx] == Compare(sorted[i], sorted[j], g)
    decreases n
  {
    var before := RowsBelow(sorted, g, n - 1);
    if idx < |before| {
      RowsBelowEntry(sorted, g, n - 1, idx);
      var i, j :| 0 <= i < j < |sorted| && i < n - 1 && before[idx] == Compare(sorted[i], sorted[j], g);
      assert RowsBelow(sorted, g, n)[idx] == before[idx];
    } else {
      var j := idx - |before|;
      assert RowsBelow(sorted, g, n)[idx] == RowOf(sorted, g, n - 1)[j];
      assert 0 <= n - 1 < n - 1 + 1 + j < |sorted|;
    }
  }

  /** The first `n` rows hold the comparison of `sorted[i]` with a later
      `sorted[j]` for each `i < n`. */
  lemma {:induction false} RowsBelowHas(sorted: seq<string>, g: Grouping, n: nat, i: nat, j: nat)
    requires Grouped(sorted, g) && n <= |sorted| && i < n && i < j < |sorted|
    ensures Compare(sorted[i], sorted[j], g) in RowsBelow(sorted, g, n)
    decreases n
  {
    if i < n - 1 {
      RowsBelowHas(sorted, g, n - 1, i, j);
    } else {
      assert RowOf(sorted, g, i)[j - i - 1] == Compare(sorted[i], sorted[j], g);
    }
  }

  /** Every comparison is of two systems of the run, the first sorting
      before the second, and is their comparison. */
  lemma PairwiseEntries(results: seq<ResultRow>)
    ensures var g := GroupRows(results);
      var p := Pairwise(results);
      forall idx :: 0 <= idx < |p| ==>
        && p[idx].providerA in Systems(results) && p[idx].providerB in Systems(results)
        && Less(p[idx].providerA, p[idx].providerB)
        && p[idx].providerA in g.groups && p[idx].providerB in g.groups
        && p[idx] == Compare(p[idx].providerA, p[idx].providerB, g)
  {
    var g := GroupRows(results);
    GroupRowsOk(results);
    var sorted := SortedSystems(g);
    var p := Pairwise(results);
    SystemsAreGroups(results);
    forall idx | 0 <= idx < |p|
      ensures && p[idx].providerA in Systems(results) && p[idx].providerB in Systems(results)
              && Less(p[idx].providerA, p[idx].providerB)
              && p[idx].providerA in g.groups && p[idx].providerB in g.groups
              && p[idx] == Compare(p[idx].providerA, p[idx].providerB, g)
    {
      RowsBelowEntry(sorted, g, |sorted|, idx);
      var i, j :| 0 <= i < j < |sorted| && p[idx] == Compare(sorted[i], sorted[j], g);
      assert sorted[i] in sorted && sorted[j] in sorted;
    }
  }

  /** Two systems of a sorted list, in order, are compared in its rows. */
  lemma SortedPairHas(sorted: seq<string>, g: Grouping, a: string, b: string)
    requires StrictlySorted(sorted) && Grouped(sorted, g)
    requires a in sorted && b in sorted && Less(a, b)
    ensures Compare(a, b, g) in RowsBelow(sorted, g, |sorted|)
  {
    var i :| 0 <= i < |sorted| && sorted[i] == a;
    var j :| 0 <= j < |sorted| && sorted[j] == b;
    if j <= i {
      LessIrreflexive(a);
      if j < i {
        LessAsymmetric(a, b);
      }
    }
    RowsBelowHas(sorted, g, |sorted|, i, j);
  }

  /** Every two systems of the run are compared, in sorted order. */
  lemma PairwiseComplete(results: seq<ResultRow>, a: string, b: string)
    requires a in Systems(results) && b in Systems(results) && Less(a, b)
    ensures exists idx :: (0 <= idx < |Pairwise(results)| &&
      Pairwise(results)[idx].providerA == a && Pairwise(results)[idx].providerB == b)
  {
    var g := GroupRows(results);
    GroupRowsOk(results);
    var sorted := SortedSystems(g);
    SystemsAreGroups(results);
    SortedPairHas(sorted, g, a, b);
    var p := Pairwise(results);
    assert p == RowsBelow(sorted, g, |sorted|);
    var idx :| 0 <= idx < |p| && p[idx] == Compare(a, b, g);
  }
}
