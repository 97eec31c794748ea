/** Scoring a run (src/llm_eval/scoring.py): the result records are grouped
    by system, and within a system by category; each group counts its
    attempts, its correct answers and its latency, and the error counts come
    from the run summary. */
module Scoring {
  import opened Wrappers
  import opened Text
  import opened Sums
  import opened Storage

  // ----- Reading the results file -----

  /** The records of `results.jsonl` in order, blank lines skipped; `Err(j)`
      is the `json.loads` failure on line `j`, the first malformed line. */
  function LoadLines(lines: seq<LogLine>): (r: Result<seq<ResultRow>, nat>)
    ensures r.Ok? <==> WellFormed(lines)
    ensures r.Ok? ==> |r.value| <= |lines|
    ensures r.Err? ==> (r.error < |lines| && lines[r.error].Malformed?
                        && forall j :: 0 <= j < r.error ==> !lines[j].Malformed?)
    decreases |lines|
  {
    if lines == [] then Ok([])
    else
      var init := lines[..|lines| - 1];
      var last := lines[|lines| - 1];
      assert forall j :: 0 <= j < |init| ==> init[j] == lines[j];
      match LoadLines(init)
      case Err(j) => Err(j)
      case Ok(rows) =>
        match last
        case Blank => Ok(rows)
        case Row(row) => Ok(rows + [row])
        case Malformed => Err(|init|)
  }

  /** `load_results`; `None` is a file that does not exist. */
  function LoadResults(file: Option<seq<LogLine>>): (r: Result<seq<ResultRow>, nat>)
    ensures file.None? ==> r == Ok([])
    ensures file.Some? ==> r == LoadLines(file.value)
  {
    match file
    case None => Ok([])
    case Some(lines) => LoadLines(lines)
  }

  /** Appending records to a readable results file: reading it back gives
      the records that were there followed by the appended ones. */
  lemma {:induction false} LoadAfterAppend(file: Option<seq<LogLine>>, rows: seq<ResultRow>, before: seq<ResultRow>)
    requires LoadResults(file) == Ok(before)
    ensures LoadResults(ResultsAfter(file, rows)) == Ok(before + rows)
    decreases |rows|
  {
    if rows == [] {
      assert before + rows == before;
    } else {
      var init := rows[..|rows| - 1];
      LoadAfterAppend(file, init, before);
      var lines := ResultsAfter(file, init).GetOr([]);
      var ext := lines + [Row(rows[|rows| - 1])];
      assert ext[..|ext| - 1] == lines;
      assert LoadLines(lines) == Ok(before + init);
      assert before + init + [rows[|rows| - 1]] == before + rows;
    }
  }

  // ----- The values `score_results` reads from a row -----

  /** `_resolve_system_id`: a truthy `system_id`, or else
      `"<provider>:<model>"` with `"unknown"` for a missing field. */
  function ResolveSystemId(row: ResultRow): string {
    if row.systemId.Some? && row.systemId.value != "" then row.systemId.value
    else row.provider.GetOr("unknown") + ":" + row.model.GetOr("unknown")
  }

  function IsCorrectOf(row: ResultRow): bool {
    row.isCorrect.GetOr(false)
  }

  function CategoryOf(row: ResultRow): string {
    row.category.GetOr("unknown")
  }

  /** `float(row.get("latency_ms") or 0)`. */
  function LatencyOf(row: ResultRow): real {
    row.latencyMs.GetOr(0) as real
  }

  /** Without a system id, the fallback id splits at its colons back into
      the provider and the model, when neither of them holds one. */
  lemma FallbackIdRoundTrip(row: ResultRow)
    requires row.systemId.None? || row.systemId.value == ""
    requires ':' !in row.provider.GetOr("unknown") && ':' !in row.model.GetOr("unknown")
    ensures Split(ResolveSystemId(row), ':') == [row.provider.GetOr("unknown"), row.model.GetOr("unknown")]
  {
    var p := row.provider.GetOr("unknown");
    var m := row.model.GetOr("unknown");
    assert ResolveSystemId(row) == p + [':'] + m;
    SplitAtFirst(p, ':', m);
    SplitWithout(m, ':');
  }

  /** A truthy system id is used as it is, so records of the same provider
      and model with different system ids are scored apart. */
  lemma SystemIdWins(row: ResultRow)
    requires row.systemId.Some? && row.systemId.value != ""
    ensures ResolveSystemId(row) == row.systemId.value
  {
  }

  // ----- The buckets of the first loop -----

  datatype CategoryCount = CategoryCount(attempted: int, correct: int)

  /** One entry of `by_system` before finalizing; `latencyTotal` is what
      the source accumulates in `avg_latency_ms` before dividing. */
  datatype Bucket = Bucket(
    provider: string,
    model: string,
    attempted: int,
    correct: int,
    latencyTotal: real,
    categoryNames: seq<string>,
    categories: map<string, CategoryCount>)

  const EmptyBucket: Bucket := Bucket("", "", 0, 0, 0.0, [], map[])

  /** `by_system`: its keys in insertion order and its entries. */
  datatype Buckets = Buckets(ids: seq<string>, systems: map<string, Bucket>)

  function Inc(b: bool): int {
    if b then 1 else 0
  }

  /** The body of the first loop on one system's bucket. */
  function AddToBucket(b: Bucket, row: ResultRow): Bucket {
    var cat := CategoryOf(row);
    var c := if cat in b.categories then b.categories[cat] else CategoryCount(0, 0);
    Bucket(row.provider.GetOr("unknown"), row.model.GetOr("unknown"),
           b.attempted + 1, b.correct + Inc(IsCorrectOf(row)), b.latencyTotal + LatencyOf(row),
           if cat in b.categories then b.categoryNames else b.categoryNames + [cat],
           b.categories[cat := CategoryCount(c.attempted + 1, c.correct + Inc(IsCorrectOf(row)))])
  }

  function AddRow(bs: Buckets, row: ResultRow): Buckets {
    var id := ResolveSystemId(row);
    var b := if id in bs.systems then bs.systems[id] else EmptyBucket;
    Buckets(if id in bs.systems then bs.ids else bs.ids + [id], bs.systems[id := AddToBucket(b, row)])
  }

  /** `by_system` after the first loop has seen `rows`. */
  function Tally(rows: seq<ResultRow>): Buckets
    decreases |rows|
  {
    if rows == [] then Buckets([], map[])
    else AddRow(Tally(rows[..|rows| - 1]), rows[|rows| - 1])
  }

  /** One system's bucket after it has seen `rows`, all of that system. */
  function BucketOf(rows: seq<ResultRow>): Bucket
    decreases |rows|
  {
    if rows == [] then EmptyBucket
    else AddToBucket(BucketOf(rows[..|rows| - 1]), rows[|rows| - 1])
  }

  // ----- Reference counts over the records -----

  /** The records of system `id`, in order. */
  function SystemRows(rows: seq<ResultRow>, id: string): seq<ResultRow>
    decreases |rows|
  {
    if rows == [] then []
    else
      var init := SystemRows(rows[..|rows| - 1], id);
      if ResolveSystemId(rows[|rows| - 1]) == id then init + [rows[|rows| - 1]] else init
  }

  /** The records of category `cat`, in order. */
  function CategoryRows(rows: seq<ResultRow>, cat: string): seq<ResultRow>
    decreases |rows|
  {
    if rows == [] then []
    else
      var init := CategoryRows(rows[..|rows| - 1], cat);
      if CategoryOf(rows[|rows| - 1]) == cat then init + [rows[|rows| - 1]] else init
  }

  function CorrectCount(rows: seq<ResultRow>): int
    decreases |rows|
  {
    if rows == [] then 0 else CorrectCount(rows[..|rows| - 1]) + Inc(IsCorrectOf(rows[|rows| - 1]))
  }

  function LatencySum(rows: seq<ResultRow>): real
    decreases |rows|
  {
    if rows == [] then 0.0 else LatencySum(rows[..|rows| - 1]) + LatencyOf(rows[|rows| - 1])
  }

  function Attempted(b: Bucket): int {
    b.attempted
  }

  function CategoryAttempted(c: CategoryCount): int {
    c.attempted
  }

  function CategoryCorrect(c: CategoryCount): int {
    c.correct
  }

  lemma SystemRowsSnoc(rows: seq<ResultRow>, row: ResultRow, id: string)
    ensures SystemRows(rows + [row], id) ==
      if ResolveSystemId(row) == id then SystemRows(rows, id) + [row] else SystemRows(rows, id)
  {
    assert (rows + [row])[..|rows|] == rows;
  }

  lemma CategoryRowsSnoc(rows: seq<ResultRow>, row: ResultRow, cat: string)
    ensures CategoryRows(rows + [row], cat) ==
      if CategoryOf(row) == cat then CategoryRows(rows, cat) + [row] else CategoryRows(rows, cat)
  {
    assert (rows + [row])[..|rows|] == rows;
  }

  lemma CountsSnoc(rows: seq<ResultRow>, row: ResultRow)
    ensures CorrectCount(rows + [row]) == CorrectCount(rows) + Inc(IsCorrectOf(row))
    ensures LatencySum(rows + [row]) == LatencySum(rows) + LatencyOf(row)
    ensures BucketOf(rows + [row]) == AddToBucket(BucketOf(rows), row)
  {
    assert (rows + [row])[..|rows|] == rows;
  }

  lemma {:induction false} CorrectCountBounds(rows: seq<ResultRow>)
    ensures 0 <= CorrectCount(rows) <= |rows|
    decreases |rows|
  {
    if rows != [] {
      CorrectCountBounds(rows[..|rows| - 1]);
    }
  }

  /** The totals of a bucket are those of the records it has seen, and its
      provider and model are those of the latest one. */
  ghost predicate CountsOf(b: Bucket, rows: seq<ResultRow>) {
    && b.attempted == |rows|
    && b.correct == CorrectCount(rows)
    && b.latencyTotal == LatencySum(rows)
    && (rows != [] ==> (b.provider == rows[|rows| - 1].provider.GetOr("unknown")
                        && b.model == rows[|rows| - 1].model.GetOr("unknown")))
  }

  /** The category names list each key of the category map once. */
  ghost predicate NamesMatch(b: Bucket) {
    && Distinct(b.categoryNames)
    && (forall c :: c in b.categories <==> c in b.categoryNames)
  }

  /** The categories of a bucket are those of the records it has seen, each
      with the counts of its own records. */
  ghost predicate CategoriesOf(b: Bucket, rows: seq<ResultRow>) {
    && NamesMatch(b)
    && (forall c :: c in b.categories <==> CategoryRows(rows, c) != [])
    && (forall c :: c in b.categories ==>
          b.categories[c] == CategoryCount(|CategoryRows(rows, c)|, CorrectCount(CategoryRows(rows, c))))
  }

  /** The category counts add up to the system's counts. */
  ghost predicate SumsOf(b: Bucket) {
    && SumOf(b.categoryNames, b.categories, CategoryAttempted) == b.attempted
    && SumOf(b.categoryNames, b.categories, CategoryCorrect) == b.correct
  }

  ghost predicate Describes(b: Bucket, rows: seq<ResultRow>) {
    CountsOf(b, rows) && CategoriesOf(b, rows) && SumsOf(b)
  }

  lemma CountsStep(b: Bucket, rows: seq<ResultRow>, row: ResultRow)
    requires CountsOf(b, rows)
    ensures CountsOf(AddToBucket(b, row), rows + [row])
  {
    CountsSnoc(rows, row);
  }

  lemma NamesStep(b: Bucket, row: ResultRow)
    requires NamesMatch(b)
    ensures NamesMatch(AddToBucket(b, row))
  {
    var cat := CategoryOf(row);
    if cat !in b.categories {
      AppendDistinct(b.categoryNames, cat);
    }
  }

  lemma CategoryKeysStep(b: Bucket, rows: seq<ResultRow>, row: ResultRow)
    requires forall c :: c in b.categories <==> CategoryRows(rows, c) != []
    ensures forall c :: c in AddToBucket(b, row).categories <==> CategoryRows(rows + [row], c) != []
  {
    forall c ensures c in AddToBucket(b, row).categories <==> CategoryRows(rows + [row], c) != [] {
      CategoryRowsSnoc(rows, row, c);
    }
  }

  lemma CategoryValuesStep(b: Bucket, rows: seq<ResultRow>, row: ResultRow)
    requires forall c :: c in b.categories <==> CategoryRows(rows, c) != []
    requires forall c :: c in b.categories ==>
               b.categories[c] == CategoryCount(|CategoryRows(rows, c)|, CorrectCount(CategoryRows(rows, c)))
    ensures forall c :: c in AddToBucket(b, row).categories ==>
              AddToBucket(b, row).categories[c]
                == CategoryCount(|CategoryRows(rows + [row], c)|, CorrectCount(CategoryRows(rows + [row], c)))
  {
    var cat := CategoryOf(row);
    var b' := AddToBucket(b, row);
    forall c | c in b'.categories
      ensures b'.categories[c] == CategoryCount(|CategoryRows(rows + [row], c)|, CorrectCount(CategoryRows(rows + [row], c)))
    {
      CategoryRowsSnoc(rows, row, c);
      if c == cat {
        CountsSnoc(CategoryRows(rows, cat), row);
      }
    }
  }

  lemma CategoriesStep(b: Bucket, rows: seq<ResultRow>, row: ResultRow)
    requires CategoriesOf(b, rows)
    ensures CategoriesOf(AddToBucket(b, row), rows + [row])
  {
    NamesStep(b, row);
    CategoryKeysStep(b, rows, row);
    CategoryValuesStep(b, rows, row);
  }

  lemma SumsStep(b: Bucket, row: ResultRow)
    requires NamesMatch(b) && SumsOf(b)
    ensures SumsOf(AddToBucket(b, row))
  {
    var cat := CategoryOf(row);
    var c := if cat in b.categories then b.categories[cat] else CategoryCount(0, 0);
    var c' := CategoryCount(c.attempted + 1, c.correct + Inc(IsCorrectOf(row)));
    SumUpdate(b.categoryNames, b.categories, cat, c', CategoryAttempted);
    SumUpdate(b.categoryNames, b.categories, cat, c', CategoryCorrect);
    if cat !in b.categories {
      SumSnoc(b.categoryNames, cat, b.categories[cat := c'], CategoryAttempted);
      SumSnoc(b.categoryNames, cat, b.categories[cat := c'], CategoryCorrect);
    }
  }

  /** A bucket is what its records say: its counts, its categories with
      their own counts, and category counts that add up to the totals. */
  lemma {:induction false} BucketOfDescribes(rows: seq<ResultRow>)
    ensures Describes(BucketOf(rows), rows)
    decreases |rows|
  {
    if rows != [] {
      var init := rows[..|rows| - 1];
      var row := rows[|rows| - 1];
      BucketOfDescribes(init);
      assert rows == init + [row];
      CountsSnoc(init, row);
      CountsStep(BucketOf(init), init, row);
      CategoriesStep(BucketOf(init), init, row);
      SumsStep(BucketOf(init), row);
    }
  }

  /** The buckets are well formed: the ids are distinct and are exactly the
      keys of the map. */
  ghost predicate WellFormedBuckets(bs: Buckets) {
    && Distinct(bs.ids)
    && (forall id :: id in bs.systems <==> id in bs.ids)
  }

  lemma {:induction false} TallyWellFormed(rows: seq<ResultRow>)
    ensures WellFormedBuckets(Tally(rows))
    decreases |rows|
  {
    if rows != [] {
      var t := Tally(rows[..|rows| - 1]);
      TallyWellFormed(rows[..|rows| - 1]);
      var id := ResolveSystemId(rows[|rows| - 1]);
      if id !in t.systems {
        AppendDistinct(t.ids, id);
      }
    }
  }

  /** The systems present and their buckets, after `rows`. */
  ghost predicate BucketsOf(t: Buckets, rows: seq<ResultRow>) {
    && (forall id :: id in t.systems <==> SystemRows(rows, id) != [])
    && (forall id :: id in t.systems ==> t.systems[id] == BucketOf(SystemRows(rows, id)))
  }

  lemma BucketsStep(init: seq<ResultRow>, row: ResultRow)
    requires BucketsOf(Tally(init), init)
    ensures BucketsOf(AddRow(Tally(init), row), init + [row])
  {
    var t := AddRow(Tally(init), row);
    var rows := init + [row];
    var id := ResolveSystemId(row);
    forall x ensures x in t.systems <==> SystemRows(rows, x) != [] {
      SystemRowsSnoc(init, row, x);
    }
    forall x | x in t.systems ensures t.systems[x] == BucketOf(SystemRows(rows, x)) {
      SystemRowsSnoc(init, row, x);
      if x == id {
        CountsSnoc(SystemRows(init, id), row);
      }
    }
  }

  /** `by_system` after the first loop: the systems present are those some
      record resolves to, and each bucket is that system's records folded. */
  lemma {:induction false} TallyIsBuckets(rows: seq<ResultRow>)
    ensures WellFormedBuckets(Tally(rows))
    ensures forall id :: id in Tally(rows).systems <==> SystemRows(rows, id) != []
    ensures forall id :: id in Tally(rows).systems ==> Tally(rows).systems[id] == BucketOf(SystemRows(rows, id))
    decreases |rows|
  {
    TallyWellFormed(rows);
    if rows != [] {
      var init := rows[..|rows| - 1];
      var row := rows[|rows| - 1];
      TallyIsBuckets(init);
      BucketsStep(init, row);
      assert rows == init + [row];
    }
  }

  /** Every record is counted in exactly one system: the attempts of all
      systems add up to the number of records. */
  lemma {:induction false} AttemptsAddUp(rows: seq<ResultRow>)
    ensures SumOf(Tally(rows).ids, Tally(rows).systems, Attempted) == |rows|
    decreases |rows|
  {
    if rows != [] {
      var init := rows[..|rows| - 1];
      var row := rows[|rows| - 1];
      AttemptsAddUp(init);
      TallyIsBuckets(init);
      var t := Tally(init);
      var id := ResolveSystemId(row);
      var b := if id in t.systems then t.systems[id] else EmptyBucket;
      var b' := AddToBucket(b, row);
      SumUpdate(t.ids, t.systems, id, b', Attempted);
      if id !in t.systems {
        SumSnoc(t.ids, id, t.systems[id := b'], Attempted);
      }
    }
  }

  // ----- The finalized report -----

  datatype CategoryScore = CategoryScore(attempted: int, correct: int, accuracy: real)

  datatype SystemScore = SystemScore(
    provider: string,
    model: string,
    attempted: int,
    correct: int,
    accuracy: real,
    avgLatencyMs: real,
    errors: int,
    categoryNames: seq<string>,
    categories: map<string, CategoryScore>)

  /** What `score_results` returns. */
  datatype ScoreReport = ScoreReport(
    ids: seq<string>,
    providers: map<string, SystemScore>,
    totalRows: int,
    status: string)

  /** A count over the attempts, 0 when there were none. */
  function Ratio(x: real, attempted: int): real {
    if attempted != 0 then x / attempted as real else 0.0
  }

  function ScoreCategory(c: CategoryCount): CategoryScore {
    CategoryScore(c.attempted, c.correct, Ratio(c.correct as real, c.attempted))
  }

  /** The `errors` of `provider_metrics[id]` in the summary, or 0 when the
      summary is missing or has no entry for `id`. */
  function SummaryErrors(summary: Option<Summary>, id: string): int {
    if summary.Some? && id in summary.value.metrics then summary.value.metrics[id].errors else 0
  }

  function StatusOf(summary: Option<Summary>): string {
    if summary.Some? then summary.value.status else "unknown"
  }

  function ScoreSystem(b: Bucket, errors: int): SystemScore {
    SystemScore(b.provider, b.model, b.attempted, b.correct,
                Ratio(b.correct as real, b.attempted), Ratio(b.latencyTotal, b.attempted), errors,
                b.categoryNames, map c | c in b.categories :: ScoreCategory(b.categories[c]))
  }

  function ScoreOf(rows: seq<ResultRow>, summary: Option<Summary>): ScoreReport {
    var t := Tally(rows);
    ScoreReport(t.ids, map id | id in t.systems :: ScoreSystem(t.systems[id], SummaryErrors(summary, id)),
                |rows|, StatusOf(summary))
  }

  function SystemAttempted(m: SystemScore): int {
    m.attempted
  }

  function ScoreAttempted(c: CategoryScore): int {
    c.attempted
  }

  function ScoreCorrect(c: CategoryScore): int {
    c.correct
  }

  /** Dividing by the attempts and multiplying back recovers the total. */
  lemma RatioTimes(x: real, n: int)
    requires n != 0
    ensures Ratio(x, n) * n as real == x
  {
  }

  /** A count that is part of the attempts gives a proportion. */
  lemma RatioBounds(x: int, n: int)
    requires 0 <= x <= n
    ensures 0.0 <= Ratio(x as real, n) <= 1.0
  {
    if n != 0 {
      assert x as real / n as real <= n as real / n as real;
    }
  }

  lemma {:induction false} SystemRowsAreOfSystem(rows: seq<ResultRow>, id: string)
    ensures forall r :: r in SystemRows(rows, id) ==> r in rows && ResolveSystemId(r) == id
    ensures SystemRows(rows, id) != [] <==> exists k :: 0 <= k < |rows| && ResolveSystemId(rows[k]) == id
    decreases |rows|
  {
    if rows != [] {
      var init := rows[..|rows| - 1];
      SystemRowsAreOfSystem(init, id);
      assert rows == init + [rows[|rows| - 1]];
      if SystemRows(rows, id) != [] && SystemRows(init, id) != [] {
        var k :| 0 <= k < |init| && ResolveSystemId(init[k]) == id;
        assert rows[k] == init[k];
      }
    }
  }

  /** The report lists each system once, the systems being exactly those
      some record resolves to; the attempts
      of all systems add up to the number of records, which is `total_rows`;
      the status is the summary's, or "unknown" without a summary. */
  lemma ReportSystems(rows: seq<ResultRow>, summary: Option<Summary>)
    ensures var r := ScoreOf(rows, summary);
      && r.totalRows == |rows|
      && Distinct(r.ids)
      && (forall id :: id in r.providers <==> id in r.ids)
      && (forall id :: id in r.providers <==> exists k :: 0 <= k < |rows| && ResolveSystemId(rows[k]) == id)
      && SumOf(r.ids, r.providers, SystemAttempted) == |rows|
      && r.status == (if summary.Some? then summary.value.status else "unknown")
  {
    var t := Tally(rows);
    var r := ScoreOf(rows, summary);
    TallyIsBuckets(rows);
    forall id {
      SystemRowsAreOfSystem(rows, id);
    }
    AttemptsAddUp(rows);
    SumOfAcross(t.ids, t.systems, Attempted, r.providers, SystemAttempted);
  }

  /** A finalized entry and the records of its system: their counts, the
      accuracy and the average latency as ratios to the attempts, the
      provider and model of the latest record, and the error count. */
  ghost predicate EntryOf(m: SystemScore, own: seq<ResultRow>, errors: int) {
    && own != []
    && m.attempted == |own| && m.correct == CorrectCount(own)
    && 0 <= m.correct <= m.attempted
    && 0.0 <= m.accuracy <= 1.0 && m.accuracy * m.attempted as real == m.correct as real
    && m.avgLatencyMs * m.attempted as real == LatencySum(own)
    && m.provider == own[|own| - 1].provider.GetOr("unknown")
    && m.model == own[|own| - 1].model.GetOr("unknown")
    && m.errors == errors
  }

  lemma ScoreSystemFacts(b: Bucket, own: seq<ResultRow>, errors: int)
    requires CountsOf(b, own) && own != []
    ensures EntryOf(ScoreSystem(b, errors), own, errors)
  {
    CorrectCountBounds(own);
    RatioBounds(b.correct, b.attempted);
    RatioTimes(b.correct as real, b.attempted);
    RatioTimes(b.latencyTotal, b.attempted);
  }

  /** A finalized category and its records: their counts and the accuracy
      as the ratio of the two. */
  ghost predicate CategoryEntryOf(cs: CategoryScore, own: seq<ResultRow>) {
    && cs.attempted == |own| && cs.correct == CorrectCount(own)
    && 0 <= cs.correct <= cs.attempted
    && 0.0 <= cs.accuracy <= 1.0 && (cs.attempted != 0 ==> cs.accuracy * cs.attempted as real == cs.correct as real)
  }

  lemma ScoreCategoryFacts(own: seq<ResultRow>)
    ensures CategoryEntryOf(ScoreCategory(CategoryCount(|own|, CorrectCount(own))), own)
  {
    CorrectCountBounds(own);
    RatioBounds(CorrectCount(own), |own|);
    if |own| != 0 {
      RatioTimes(CorrectCount(own) as real, |own|);
    }
  }

  /** The categories of a finalized entry are those of its system's
      records, each scored on its own records, in first-seen order, and
      their counts add up to the system's. */
  ghost predicate CategoriesEntryOf(m: SystemScore, own: seq<ResultRow>) {
    && Distinct(m.categoryNames)
    && (forall c :: c in m.categories <==> c in m.categoryNames)
    && (forall c :: c in m.categories <==> CategoryRows(own, c) != [])
    && (forall c :: c in m.categories ==> CategoryEntryOf(m.categories[c], CategoryRows(own, c)))
    && SumOf(m.categoryNames, m.categories, ScoreAttempted) == m.attempted
    && SumOf(m.categoryNames, m.categories, ScoreCorrect) == m.correct
  }

  lemma ScoreCategoriesFacts(b: Bucket, own: seq<ResultRow>, errors: int)
    requires Describes(b, own)
    ensures CategoriesEntryOf(ScoreSystem(b, errors), own)
  {
    var m := ScoreSystem(b, errors);
    forall c | c in m.categories ensures CategoryEntryOf(m.categories[c], CategoryRows(own, c)) {
      ScoreCategoryFacts(CategoryRows(own, c));
    }
    SumOfAcross(b.categoryNames, b.categories, CategoryAttempted, m.categories, ScoreAttempted);
    SumOfAcross(b.categoryNames, b.categories, CategoryCorrect, m.categories, ScoreCorrect);
  }

  /** The entry of a system in the report is its bucket, finalized with the
      summary's error count for it; the bucket is its own records folded. */
  lemma ReportEntry(rows: seq<ResultRow>, summary: Option<Summary>, id: string)
    requires id in ScoreOf(rows, summary).providers
    ensures var own := SystemRows(rows, id);
      && own != [] && (forall r :: r in own ==> r in rows && ResolveSystemId(r) == id)
      && Describes(BucketOf(own), own)
      && ScoreOf(rows, summary).providers[id] == ScoreSystem(BucketOf(own), SummaryErrors(summary, id))
  {
    TallyIsBuckets(rows);
    SystemRowsAreOfSystem(rows, id);
    BucketOfDescribes(SystemRows(rows, id));
  }

  /** The entry of one system: its counts are those of its records, its
      accuracy and average latency are the ratios to its attempts, its
      provider and model are those of its latest record, and its error count
      is the summary's entry for that id, or 0 when there is none. */
  lemma ReportSystem(rows: seq<ResultRow>, summary: Option<Summary>, id: string)
    requires id in ScoreOf(rows, summary).providers
    ensures var own := SystemRows(rows, id);
      && (forall r :: r in own ==> r in rows && ResolveSystemId(r) == id)
      && EntryOf(ScoreOf(rows, summary).providers[id], own,
                 if summary.Some? && id in summary.value.metrics then summary.value.metrics[id].errors else 0)
  {
    ReportEntry(rows, summary, id);
    var own := SystemRows(rows, id);
    ScoreSystemFacts(BucketOf(own), own, SummaryErrors(summary, id));
  }

  /** The categories of one system: those of its records, each with the
      counts of its own records and their ratio, and adding up to the
      system's attempts and correct answers. */
  lemma ReportCategories(rows: seq<ResultRow>, summary: Option<Summary>, id: string)
    requires id in ScoreOf(rows, summary).providers
    ensures CategoriesEntryOf(ScoreOf(rows, summary).providers[id], SystemRows(rows, id))
  {
    ReportEntry(rows, summary, id);
    var own := SystemRows(rows, id);
    ScoreCategoriesFacts(BucketOf(own), own, SummaryErrors(summary, id));
  }

  /** Records without a system id never match a summary whose keys hold no
      colon: every system's error count is then 0. */
  lemma NoSystemIdNoErrors(rows: seq<ResultRow>, summary: Summary)
    requires forall k :: 0 <= k < |rows| ==> rows[k].systemId.None?
    requires forall n :: n in summary.metrics ==> ':' !in n
    ensures forall id :: id in ScoreOf(rows, Some(summary)).providers ==>
      ScoreOf(rows, Some(summary)).providers[id].errors == 0
  {
    forall id | id in ScoreOf(rows, Some(summary)).providers
      ensures ScoreOf(rows, Some(summary)).providers[id].errors == 0
    {
      ReportSystems(rows, Some(summary));
      var k :| 0 <= k < |rows| && ResolveSystemId(rows[k]) == id;
      var row := rows[k];
      assert id == row.provider.GetOr("unknown") + ":" + row.model.GetOr("unknown");
      assert id[|row.provider.GetOr("unknown")|] == ':';
    }
  }

  /** The inner loop of the second loop: the accuracy of each category. */
  method FinalizeCategories(names: seq<string>, cats: map<string, CategoryCount>)
    returns (out: map<string, CategoryScore>)
    requires forall c :: c in cats <==> c in names
    ensures out == map c | c in cats :: ScoreCategory(cats[c])
  {
    out := map[];
    var k := 0;
    while k < |names|
      invariant 0 <= k <= |names|
      invariant out == map c | c in names[..k] :: ScoreCategory(cats[c])
    {
      var name := names[k];
      var cat := cats[name];
      var accuracy := if cat.attempted != 0 then cat.correct as real / cat.attempted as real else 0.0;
      out := out[name := CategoryScore(cat.attempted, cat.correct, accuracy)];
      assert names[..k + 1] == names[..k] + [name];
      k := k + 1;
    }
    assert names[..k] == names;
  }

  /** The body of the first loop of `score_results` on one record. */
  method AddRecord(ids0: seq<string>, systems0: map<string, Bucket>, row: ResultRow)
    returns (ids: seq<string>, systems: map<string, Bucket>)
    ensures Buckets(ids, systems) == AddRow(Buckets(ids0, systems0), row)
  {
    ids, systems := ids0, systems0;
    var id := ResolveSystemId(row);
    if id !in systems {
      ids := ids + [id];
      systems := systems[id := EmptyBucket];
    }
    var b := systems[id];
    var category := CategoryOf(row);
    var inc := if IsCorrectOf(row) then 1 else 0;
    var c := if category in b.categories then b.categories[category] else CategoryCount(0, 0);
    var names := if category in b.categories then b.categoryNames else b.categoryNames + [category];
    b := b.(provider := row.provider.GetOr("unknown"), model := row.model.GetOr("unknown"),
            attempted := b.attempted + 1, correct := b.correct + inc,
            latencyTotal := b.latencyTotal + LatencyOf(row));
    b := b.(categoryNames := names,
            categories := b.categories[category := CategoryCount(c.attempted + 1, c.correct + inc)]);
    systems := systems[id := b];
  }

  method TallyResults(results: seq<ResultRow>) returns (ids: seq<string>, systems: map<string, Bucket>)
    ensures Buckets(ids, systems) == Tally(results)
  {
    ids := [];
    systems := map[];
    var i := 0;
    while i < |results|
      invariant 0 <= i <= |results|
      invariant Buckets(ids, systems) == Tally(results[..i])
    {
      ids, systems := AddRecord(ids, systems, results[i]);
      assert results[..i + 1][..i] == results[..i];
      i := i + 1;
    }
    assert results[..i] == results;
  }

  /** The second loop of `score_results`: the accuracy and the average
      latency of each system, and its error count from the summary. */
  method FinalizeSystems(ids: seq<string>, systems: map<string, Bucket>, summary: Option<Summary>)
    returns (providers: map<string, SystemScore>)
    requires forall id :: id in systems <==> id in ids
    requires forall id :: id in systems ==> NamesMatch(systems[id])
    ensures providers == map id | id in systems :: ScoreSystem(systems[id], SummaryErrors(summary, id))
  {
    providers := map[];
    var j := 0;
    while j < |ids|
      invariant 0 <= j <= |ids|
      invariant providers == map id | id in ids[..j] :: ScoreSystem(systems[id], SummaryErrors(summary, id))
    {
      var id := ids[j];
      var m := systems[id];
      var accuracy := if m.attempted != 0 then m.correct as real / m.attempted as real else 0.0;
      var avgLatency := if m.attempted != 0 then m.latencyTotal / m.attempted as real else 0.0;
      var errors := if summary.Some? && id in summary.value.metrics then summary.value.metrics[id].errors else 0;
      var cats := FinalizeCategories(m.categoryNames, m.categories);
      providers := providers[id := SystemScore(m.provider, m.model, m.attempted, m.correct, accuracy,
                                               avgLatency, errors, m.categoryNames, cats)];
      assert ids[..j + 1] == ids[..j] + [id];
      j := j + 1;
    }
    assert ids[..j] == ids;
  }

  /** `score_results`: the first loop fills the buckets, the second divides
      and looks up the error counts. */
  method ScoreResults(results: seq<ResultRow>, summary: Option<Summary>) returns (report: ScoreReport)
    ensures report == ScoreOf(results, summary)
  {
    var ids, systems := TallyResults(results);
    TallyIsBuckets(results);
    forall id | id in systems ensures NamesMatch(systems[id]) {
      BucketOfDescribes(SystemRows(results, id));
    }
    var providers := FinalizeSystems(ids, systems, summary);
    var status := if summary.Some? then summary.value.status else "unknown";
    report := ScoreReport(ids, providers, |results|, status);
  }
}
