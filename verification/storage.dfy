/** The artifacts of one run directory (src/llm_eval/storage.py): the
    manifest and summary files, which each write replaces, and the result and
    error logs, to which records are only appended. */
module Storage {
  import opened Wrappers
  import opened Config
  import opened Cache

  /** A result record as read back from `results.jsonl`; `None` is a key that
      is absent or `null`. The runner fills every field except `systemId`. */
  datatype ResultRow = ResultRow(
    runId: Option<string>,
    systemId: Option<string>,
    provider: Option<string>,
    model: Option<string>,
    sampleId: Option<string>,
    category: Option<string>,
    requestKey: Option<string>,
    predicted: Option<char>,
    expected: Option<int>,
    isCorrect: Option<bool>,
    latencyMs: Option<int>,
    usage: Option<Usage>,
    responseText: Option<string>)

  /** An error record of `errors.jsonl`. */
  datatype ErrorRow = ErrorRow(
    runId: string,
    provider: string,
    model: string,
    sampleId: string,
    requestKey: string,
    errorType: string,
    error: string,
    attempt: int)

  /** The per-provider counters of a summary, with the accuracy that
      `_finalize_metrics` adds. */
  datatype Metrics = Metrics(requests: int, errors: int, correct: int, attempted: int, accuracy: real)

  /** `summary.json`. `names` lists the keys of `provider_metrics` in order. */
  datatype Summary = Summary(
    runId: string,
    status: string,
    totalRequests: int,
    totalErrors: int,
    names: seq<string>,
    metrics: map<string, Metrics>)

  /** A line of `results.jsonl`: blank after stripping, a record, or text that
      `json.loads` rejects. */
  datatype LogLine = Blank | Row(row: ResultRow) | Malformed

  /** The key a row contributes to the completed set: its `request_key` when
      that is truthy. */
  function RowKey(r: ResultRow): (ks: set<string>)
    ensures ks == {} || (r.requestKey.Some? && ks == {r.requestKey.value} && r.requestKey.value != "")
  {
    if r.requestKey.Some? && r.requestKey.value != "" then {r.requestKey.value} else {}
  }

  function AddKeys(ks: set<string>, res: Result<set<string>, nat>): Result<set<string>, nat> {
    match res
    case Ok(s) => Ok(ks + s)
    case Err(e) => Err(e)
  }

  /** The loop of `load_completed_keys` from line `i` on; `Err(j)` is the
      `json.loads` failure on line `j`. */
  function KeysFrom(lines: seq<LogLine>, i: nat): Result<set<string>, nat>
    requires i <= |lines|
    decreases |lines| - i
  {
    if i == |lines| then Ok({})
    else match lines[i]
      case Blank => KeysFrom(lines, i + 1)
      case Malformed => Err(i)
      case Row(r) => AddKeys(RowKey(r), KeysFrom(lines, i + 1))
  }

  /** `load_completed_keys` of a results file; `None` is a file that does not
      exist. */
  function CompletedKeysOf(file: Option<seq<LogLine>>): Result<set<string>, nat> {
    match file
    case None => Ok({})
    case Some(lines) => KeysFrom(lines, 0)
  }

  /** The results file after appending `rows` to `file`; the first append
      creates a missing file. */
  function ResultsAfter(file: Option<seq<LogLine>>, rows: seq<ResultRow>): (r: Option<seq<LogLine>>)
    ensures rows == [] ==> r == file
    ensures rows != [] ==> r.Some?
    decreases |rows|
  {
    if rows == [] then file
    else Some(ResultsAfter(file, rows[..|rows| - 1]).GetOr([]) + [Row(rows[|rows| - 1])])
  }

  /** The truthy request keys of `rows`. */
  function RowKeys(rows: seq<ResultRow>): set<string> {
    set j, k | 0 <= j < |rows| && k in RowKey(rows[j]) :: k
  }

  /** What the run directory holds, apart from the cache. */
  datatype RunDirectory = RunDirectory(
    manifest: Option<RunManifest>,
    results: Option<seq<LogLine>>,
    errors: seq<ErrorRow>,
    summary: Option<Summary>)

  const EmptyDirectory: RunDirectory := RunDirectory(None, None, [], None)

  class ArtifactStore {
    const runId: string
    var manifest: Option<RunManifest>
    /** `None` while `results.jsonl` does not exist. */
    var results: Option<seq<LogLine>>
    /** The records of `errors.jsonl` (none while it does not exist). */
    var errors: seq<ErrorRow>
    var summary: Option<Summary>
    /** How many times `summary.json` has been written through this store. */
    ghost var summaryWrites: nat

    /** Opening the directory `runs/<runId>` with what it already holds. */
    constructor (runId: string, existing: RunDirectory)
      ensures this.runId == runId && Contents() == existing && summaryWrites == 0
    {
      this.runId := runId;
      manifest := existing.manifest;
      results := existing.results;
      errors := existing.errors;
      summary := existing.summary;
      summaryWrites := 0;
    }

    function Contents(): RunDirectory
      reads this
    {
      RunDirectory(manifest, results, errors, summary)
    }

    /** `write_manifest`: replaces the manifest; the logs are untouched. */
    method WriteManifest(m: RunManifest)
      modifies this
      ensures Contents() == old(Contents()).(manifest := Some(m))
      ensures summaryWrites == old(summaryWrites)
    {
      manifest := Some(m);
    }

    /** `append_result`: one record more at the end of the results log. */
    method AppendResult(r: ResultRow)
      modifies this
      ensures results == Some(old(results).GetOr([]) + [Row(r)])
      ensures Contents() == old(Contents()).(results := results)
      ensures summaryWrites == old(summaryWrites)
    {
      results := Some(results.GetOr([]) + [Row(r)]);
    }

    /** `append_error`: one record more at the end of the error log. */
    method AppendError(e: ErrorRow)
      modifies this
      ensures Contents() == old(Contents()).(errors := old(errors) + [e])
      ensures summaryWrites == old(summaryWrites)
    {
      errors := errors + [e];
    }

    /** `write_summary`: replaces the summary; the logs are untouched. */
    method WriteSummary(s: Summary)
      modifies this
      ensures Contents() == old(Contents()).(summary := Some(s))
      ensures summaryWrites == old(summaryWrites) + 1
    {
      summary := Some(s);
      summaryWrites := summaryWrites + 1;
    }

    /** `load_completed_keys`: the loop over the lines of the results file. */
    method LoadCompletedKeys() returns (r: Result<set<string>, nat>)
      ensures r == CompletedKeysOf(results)
    {
      if results.None? {
        return Ok({});
      }
      var lines := results.value;
      var keys: set<string> := {};
      var i := 0;
      assert AddKeys({}, KeysFrom(lines, 0)) == KeysFrom(lines, 0) by {
        if KeysFrom(lines, 0).Ok? {
          assert {} + KeysFrom(lines, 0).value == KeysFrom(lines, 0).value;
        }
      }
      while i < |lines|
        invariant 0 <= i <= |lines|
        invariant KeysFrom(lines, 0) == AddKeys(keys, KeysFrom(lines, i))
      {
        match lines[i] {
          case Blank =>
          case Malformed =>
            return Err(i);
          case Row(row) =>
            AddKeysTwice(keys, RowKey(row), KeysFrom(lines, i + 1));
            keys := keys + RowKey(row);
        }
        i := i + 1;
      }
      assert keys + {} == keys;
      return Ok(keys);
    }
  }

  lemma AddKeysTwice(a: set<string>, b: set<string>, res: Result<set<string>, nat>)
    ensures AddKeys(a, AddKeys(b, res)) == AddKeys(a + b, res)
  {
    if res.Ok? {
      assert a + (b + res.value) == a + b + res.value;
    }
  }

  // ----- What the completed set is -----

  predicate WellFormed(lines: seq<LogLine>) {
    forall j :: 0 <= j < |lines| ==> !lines[j].Malformed?
  }

  /** The truthy request keys of the records among `lines`. */
  function LineKeys(lines: seq<LogLine>): set<string> {
    set j, k | 0 <= j < |lines| && lines[j].Row? && k in RowKey(lines[j].row) :: k
  }

  function LineKey(line: LogLine): set<string> {
    if line.Row? then RowKey(line.row) else {}
  }

  lemma LineKeysCons(lines: seq<LogLine>)
    requires |lines| > 0
    ensures LineKeys(lines) == LineKey(lines[0]) + LineKeys(lines[1..])
  {
    var rest := lines[1..];
    forall k | k in LineKeys(lines) ensures k in LineKey(lines[0]) + LineKeys(rest) {
      var j :| 0 <= j < |lines| && lines[j].Row? && k in RowKey(lines[j].row);
      if j > 0 {
        assert rest[j - 1] == lines[j];
      }
    }
    forall k | k in LineKeys(rest) ensures k in LineKeys(lines) {
      var j :| 0 <= j < |rest| && rest[j].Row? && k in RowKey(rest[j].row);
      assert lines[j + 1] == rest[j];
    }
  }

  /** On a file without malformed lines the completed set is exactly the set
      of truthy request keys of its records; blank lines contribute nothing. */
  lemma {:induction false} KeysFromWellFormed(lines: seq<LogLine>, i: nat)
    requires i <= |lines| && WellFormed(lines)
    ensures KeysFrom(lines, i) == Ok(LineKeys(lines[i..]))
    decreases |lines| - i
  {
    if i < |lines| {
      KeysFromWellFormed(lines, i + 1);
      LineKeysCons(lines[i..]);
      assert lines[i..][0] == lines[i] && lines[i..][1..] == lines[i + 1..];
      assert !lines[i].Malformed?;
      if lines[i].Blank? {
        assert LineKeys(lines[i..]) == {} + LineKeys(lines[i + 1..]);
        assert {} + LineKeys(lines[i + 1..]) == LineKeys(lines[i + 1..]);
      }
    } else {
      assert LineKeys(lines[i..]) == {};
    }
  }

  /** The whole file: `load_completed_keys` is the set of truthy request keys
      of the records in it. */
  lemma CompletedKeysOfWellFormed(lines: seq<LogLine>)
    requires WellFormed(lines)
    ensures CompletedKeysOf(Some(lines)) == Ok(LineKeys(lines))
  {
    KeysFromWellFormed(lines, 0);
    assert lines[0..] == lines;
  }

  /** A malformed line fails the whole load instead of being skipped. */
  lemma {:induction false} MalformedLineFails(lines: seq<LogLine>, i: nat, m: nat)
    requires i <= m < |lines| && lines[m].Malformed?
    ensures KeysFrom(lines, i).Err?
    decreases m - i
  {
    if i < m {
      MalformedLineFails(lines, i + 1, m);
    }
  }

  lemma {:induction false} KeysFromAppend(lines: seq<LogLine>, r: ResultRow, i: nat)
    requires i <= |lines|
    ensures KeysFrom(lines + [Row(r)], i) == AddKeys(RowKey(r), KeysFrom(lines, i))
    decreases |lines| - i
  {
    var ext := lines + [Row(r)];
    if i == |lines| {
      assert ext[i] == Row(r);
      assert KeysFrom(ext, i + 1) == Ok({});
      assert RowKey(r) + {} == RowKey(r);
    } else {
      assert ext[i] == lines[i];
      KeysFromAppend(lines, r, i + 1);
      if lines[i].Row? {
        AddKeysTwice(RowKey(lines[i].row), RowKey(r), KeysFrom(lines, i + 1));
        AddKeysTwice(RowKey(r), RowKey(lines[i].row), KeysFrom(lines, i + 1));
        assert RowKey(lines[i].row) + RowKey(r) == RowKey(r) + RowKey(lines[i].row);
      }
    }
  }

  /** After `append_result(r)` with a truthy key `k`, `k` is among the keys a
      later `load_completed_keys` returns. */
  lemma AppendedKeyIsCompleted(file: Option<seq<LogLine>>, r: ResultRow, keys: set<string>)
    requires CompletedKeysOf(file) == Ok(keys)
    requires r.requestKey.Some? && r.requestKey.value != ""
    ensures CompletedKeysOf(Some(file.GetOr([]) + [Row(r)])) == Ok(keys + {r.requestKey.value})
  {
    KeysFromAppend(file.GetOr([]), r, 0);
    assert {r.requestKey.value} + keys == keys + {r.requestKey.value};
  }

  /** Appending `rows` to a loadable results file adds exactly their truthy
      keys to the completed set. */
  lemma {:induction false} CompletedAfterRows(file: Option<seq<LogLine>>, rows: seq<ResultRow>, keys: set<string>)
    requires CompletedKeysOf(file) == Ok(keys)
    ensures CompletedKeysOf(ResultsAfter(file, rows)) == Ok(keys + RowKeys(rows))
    decreases |rows|
  {
    if rows == [] {
      assert RowKeys(rows) == {};
      assert keys + {} == keys;
    } else {
      var init := rows[..|rows| - 1];
      var last := rows[|rows| - 1];
      CompletedAfterRows(file, init, keys);
      var before := ResultsAfter(file, init);
      KeysFromAppend(before.GetOr([]), last, 0);
      assert CompletedKeysOf(before) == KeysFrom(before.GetOr([]), 0);
      assert RowKeys(rows) == RowKeys(init) + RowKey(last) by {
        assert rows == init + [last];
        forall k | k in RowKeys(rows) ensures k in RowKeys(init) + RowKey(last) {
          var j :| 0 <= j < |rows| && k in RowKey(rows[j]);
          if j < |init| {
            assert rows[j] == init[j];
          }
        }
        forall k | k in RowKeys(init) ensures k in RowKeys(rows) {
          var j :| 0 <= j < |init| && k in RowKey(init[j]);
          assert rows[j] == init[j];
        }
        assert rows[|rows| - 1] == last;
      }
      assert RowKey(last) + (keys + RowKeys(init)) == keys + RowKeys(rows);
    }
  }
}
