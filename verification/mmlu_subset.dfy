/** The newline-delimited JSON dataset loader
    (src/llm_eval/benchmarks/mmlu_subset.py). The file is given as its lines,
    each already classified the way `json.loads` would see it. */
module MmluSubset {
  import opened Wrappers
  import opened Benchmarks

  /** The fields of one JSON object line; `None` is a missing key. */
  datatype RawSample = RawSample(
    sampleId: Option<string>,
    question: Option<string>,
    choices: Option<seq<string>>,
    answerIndex: Option<int>,
    category: Option<string>)

  /** A line of the file: blank after stripping, a JSON object, or text that
      `json.loads` rejects. */
  datatype DatasetLine = Blank | Record(raw: RawSample) | Malformed

  datatype LoadError =
    | FileNotFound
    | InvalidJson(line: nat)
    | MissingField(line: nat, field: string)

  /** Builds the sample, reading the required fields in the source's order
      (the first missing one raises `KeyError`); `category` defaults to
      `"general"`. */
  function ParseSample(raw: RawSample): (r: Result<Sample, string>)
    ensures r.Ok? <==> raw.sampleId.Some? && raw.question.Some? && raw.choices.Some? && raw.answerIndex.Some?
    ensures r.Ok? ==> r.value == Sample(raw.sampleId.value, raw.question.value, raw.choices.value,
                                         raw.answerIndex.value, raw.category.GetOr("general"))
    ensures r.Err? && raw.sampleId.None? ==> r.error == "sample_id"
  {
    if raw.sampleId.None? then Err("sample_id")
    else if raw.question.None? then Err("question")
    else if raw.choices.None? then Err("choices")
    else if raw.answerIndex.None? then Err("answer_index")
    else Ok(Sample(raw.sampleId.value, raw.question.value, raw.choices.value,
                   raw.answerIndex.value, raw.category.GetOr("general")))
  }

  /** The generator from line `i` on, with `loaded` samples already yielded:
      blank lines are skipped, a bad line is fatal, and after each yield the
      generator returns once `loaded >= max_samples`. */
  function LoadFrom(lines: seq<DatasetLine>, maxSamples: Option<int>, i: nat, loaded: nat)
    : Result<seq<Sample>, LoadError>
    requires i <= |lines|
    decreases |lines| - i
  {
    if i == |lines| then Ok([])
    else match lines[i]
      case Blank => LoadFrom(lines, maxSamples, i + 1, loaded)
      case Malformed => Err(InvalidJson(i))
      case Record(raw) =>
        match ParseSample(raw)
        case Err(field) => Err(MissingField(i, field))
        case Ok(s) =>
          if maxSamples.Some? && loaded + 1 >= maxSamples.value then Ok([s])
          else Prepend([s], LoadFrom(lines, maxSamples, i + 1, loaded + 1))
  }

  function Prepend(prefix: seq<Sample>, r: Result<seq<Sample>, LoadError>): Result<seq<Sample>, LoadError> {
    match r
    case Ok(rest) => Ok(prefix + rest)
    case Err(e) => Err(e)
  }

  /** `list(MMLUSubsetDataset(path, max_samples).load())`; `None` for the file
      is a path that does not exist. */
  function Load(file: Option<seq<DatasetLine>>, maxSamples: Option<int>): Result<seq<Sample>, LoadError> {
    match file
    case None => Err(FileNotFound)
    case Some(lines) => LoadFrom(lines, maxSamples, 0, 0)
  }

  /** The loader itself: a loop over the lines with the `loaded` counter and
      the early return. */
  method LoadDataset(file: Option<seq<DatasetLine>>, maxSamples: Option<int>)
    returns (r: Result<seq<Sample>, LoadError>)
    ensures r == Load(file, maxSamples)
  {
    if file.None? {
      return Err(FileNotFound);
    }
    var lines := file.value;
    var samples: seq<Sample> := [];
    var loaded: nat := 0;
    var i := 0;
    PrependNothing(LoadFrom(lines, maxSamples, 0, 0));
    while i < |lines|
      invariant 0 <= i <= |lines|
      invariant loaded == |samples|
      invariant Load(file, maxSamples) == Prepend(samples, LoadFrom(lines, maxSamples, i, loaded))
      decreases |lines| - i
    {
      match lines[i] {
        case Blank =>
        case Malformed =>
          return Err(InvalidJson(i));
        case Record(raw) =>
          var parsed := ParseSample(raw);
          if parsed.Err? {
            return Err(MissingField(i, parsed.error));
          }
          PrependTwice(samples, [parsed.value], LoadFrom(lines, maxSamples, i + 1, loaded + 1));
          samples := samples + [parsed.value];
          loaded := loaded + 1;
          if maxSamples.Some? && loaded >= maxSamples.value {
            return Ok(samples);
          }
      }
      i := i + 1;
    }
    assert samples + [] == samples;
    return Ok(samples);
  }

  lemma PrependNothing(r: Result<seq<Sample>, LoadError>)
    ensures Prepend([], r) == r
  {
    if r.Ok? {
      assert [] + r.value == r.value;
    }
  }

  lemma PrependTwice(a: seq<Sample>, b: seq<Sample>, r: Result<seq<Sample>, LoadError>)
    ensures Prepend(a, Prepend(b, r)) == Prepend(a + b, r)
  {
    if r.Ok? {
      assert a + (b + r.value) == a + b + r.value;
    }
  }

  // ----- A reference description of what the loader yields -----

  /** Every non-blank line is an object carrying the four required fields. */
  predicate AllValid(lines: seq<DatasetLine>) {
    forall k :: 0 <= k < |lines| ==> lines[k].Blank? || (lines[k].Record? && ParseSample(lines[k].raw).Ok?)
  }

  /** The samples of all non-blank lines, in file order. */
  function ValidSamples(lines: seq<DatasetLine>): seq<Sample>
    requires AllValid(lines)
  {
    if |lines| == 0 then []
    else
      var rest := ValidSamples(lines[1..]);
      if lines[0].Blank? then rest else [ParseSample(lines[0].raw).value] + rest
  }

  /** How many samples come out of `n` valid ones: the limit check runs after
      each yield, so a limit below 1 still lets one sample through. */
  function Cut(n: nat, maxSamples: Option<int>): (k: nat)
    ensures k <= n
    ensures maxSamples.None? ==> k == n
    ensures maxSamples.Some? ==> var limit := if maxSamples.value < 1 then 1 else maxSamples.value;
      k <= limit && (k == n || k == limit)
  {
    match maxSamples
    case None => n
    case Some(m) => if m < 1 then (if n < 1 then n else 1) else if n < m then n else m
  }

  lemma {:induction false} LoadFromValid(lines: seq<DatasetLine>, maxSamples: Option<int>, i: nat, loaded: nat)
    requires i <= |lines| && AllValid(lines)
    requires maxSamples.None? || loaded == 0 || loaded < maxSamples.value
    ensures var v := ValidSamples(lines[i..]);
      var limit := if maxSamples.Some? then Some(maxSamples.value - loaded) else None;
      LoadFrom(lines, maxSamples, i, loaded) == Ok(v[..Cut(|v|, limit)])
    decreases |lines| - i
  {
    var v := ValidSamples(lines[i..]);
    var limit := if maxSamples.Some? then Some(maxSamples.value - loaded) else None;
    if i < |lines| {
      assert lines[i..][1..] == lines[i + 1..];
      assert lines[i..][0] == lines[i];
      if lines[i].Blank? {
        LoadFromValid(lines, maxSamples, i + 1, loaded);
      } else {
        var s := ParseSample(lines[i].raw).value;
        assert v == [s] + ValidSamples(lines[i + 1..]);
        if maxSamples.Some? && loaded + 1 >= maxSamples.value {
          assert Cut(|v|, limit) == 1;
          assert v[..1] == [s];
        } else {
          LoadFromValid(lines, maxSamples, i + 1, loaded + 1);
          var w := ValidSamples(lines[i + 1..]);
          var limit' := if maxSamples.Some? then Some(maxSamples.value - (loaded + 1)) else None;
          assert Cut(|v|, limit) == 1 + Cut(|w|, limit');
          assert v[..Cut(|v|, limit)] == [s] + w[..Cut(|w|, limit')];
        }
      }
    } else {
      assert v == [];
    }
  }

  /** On a file of valid lines the loader yields the first
      `min(count, max(max_samples, 1))` samples (all of them without a limit),
      in file order. */
  lemma LoadYieldsPrefix(lines: seq<DatasetLine>, maxSamples: Option<int>)
    requires AllValid(lines)
    ensures Load(Some(lines), maxSamples) == Ok(ValidSamples(lines)[..Cut(|ValidSamples(lines)|, maxSamples)])
  {
    LoadFromValid(lines, maxSamples, 0, 0);
    assert lines[0..] == lines;
    if maxSamples.Some? {
      assert maxSamples.value - 0 == maxSamples.value;
    }
  }

  /** Valid lines before line `i`, too few to reach the limit, are loaded
      in order and then loading goes on at line `i`. */
  lemma {:induction false} LoadFromPassesValid(lines: seq<DatasetLine>, maxSamples: Option<int>,
                                               j: nat, loaded: nat, i: nat)
    requires j <= i <= |lines| && AllValid(lines[j..i])
    requires var c := |ValidSamples(lines[j..i])|;
      c == 0 || maxSamples.None? || loaded + c < maxSamples.value
    ensures LoadFrom(lines, maxSamples, j, loaded)
         == Prepend(ValidSamples(lines[j..i]),
                    LoadFrom(lines, maxSamples, i, loaded + |ValidSamples(lines[j..i])|))
    decreases i - j
  {
    var v := ValidSamples(lines[j..i]);
    if j == i {
      assert lines[j..i] == [];
      assert v == [];
      match LoadFrom(lines, maxSamples, i, loaded)
      case Ok(rest) => assert [] + rest == rest;
      case Err(_) =>
    } else {
      var all, rest := lines[j..i], lines[j + 1..i];
      assert all[0] == lines[j] && all[1..] == rest;
      assert AllValid(rest) by {
        forall k | 0 <= k < |rest|
          ensures rest[k].Blank? || (rest[k].Record? && ParseSample(rest[k].raw).Ok?)
        {
          assert rest[k] == all[k + 1];
        }
      }
      var w := ValidSamples(lines[j + 1..i]);
      if lines[j].Blank? {
        assert v == w;
        LoadFromPassesValid(lines, maxSamples, j + 1, loaded, i);
      } else {
        var s := ParseSample(lines[j].raw).value;
        assert v == [s] + w;
        LoadFromPassesValid(lines, maxSamples, j + 1, loaded + 1, i);
        match LoadFrom(lines, maxSamples, i, loaded + |v|)
        case Ok(rest) => assert [s] + (w + rest) == v + rest;
        case Err(_) =>
      }
    }
  }

  /** A line that is not JSON, reached before the limit, fails the whole
      load with its index; it is not skipped. */
  lemma MalformedLineFails(lines: seq<DatasetLine>, maxSamples: Option<int>, i: nat)
    requires i < |lines| && AllValid(lines[..i]) && lines[i].Malformed?
    requires var c := |ValidSamples(lines[..i])|; c == 0 || maxSamples.None? || c < maxSamples.value
    ensures Load(Some(lines), maxSamples) == Err(InvalidJson(i))
  {
    assert lines[0..i] == lines[..i];
    LoadFromPassesValid(lines, maxSamples, 0, 0, i);
  }

  /** A record without one of the required fields, reached before the
      limit, fails the whole load with its index and the first field missing
      in the order the source reads them. */
  lemma MissingFieldFails(lines: seq<DatasetLine>, maxSamples: Option<int>, i: nat)
    requires i < |lines| && AllValid(lines[..i])
    requires lines[i].Record? && ParseSample(lines[i].raw).Err?
    requires var c := |ValidSamples(lines[..i])|; c == 0 || maxSamples.None? || c < maxSamples.value
    ensures Load(Some(lines), maxSamples) == Err(MissingField(i, ParseSample(lines[i].raw).error))
  {
    assert lines[0..i] == lines[..i];
    LoadFromPassesValid(lines, maxSamples, 0, 0, i);
  }

  /** Every object line that carries a `choices` list has at most `bound`
      entries in it. */
  predicate ChoicesAtMost(lines: seq<DatasetLine>, bound: nat) {
    forall k :: 0 <= k < |lines| && lines[k].Record? && lines[k].raw.choices.Some? ==>
      |lines[k].raw.choices.value| <= bound
  }

  /** The loaded samples come from the file's lines, so they keep any bound
      on the number of choices the lines have. */
  lemma {:induction false} LoadFromChoicesAtMost(lines: seq<DatasetLine>, maxSamples: Option<int>,
                                                 i: nat, loaded: nat, bound: nat)
    requires i <= |lines| && ChoicesAtMost(lines, bound)
    requires LoadFrom(lines, maxSamples, i, loaded).Ok?
    ensures forall j :: 0 <= j < |LoadFrom(lines, maxSamples, i, loaded).value| ==>
      |LoadFrom(lines, maxSamples, i, loaded).value[j].choices| <= bound
    decreases |lines| - i
  {
    if i < |lines| {
      match lines[i]
      case Blank => LoadFromChoicesAtMost(lines, maxSamples, i + 1, loaded, bound);
      case Malformed =>
      case Record(raw) =>
        if !(maxSamples.Some? && loaded + 1 >= maxSamples.value) {
          LoadFromChoicesAtMost(lines, maxSamples, i + 1, loaded + 1, bound);
        }
    }
  }

  lemma LoadChoicesAtMost(file: Option<seq<DatasetLine>>, maxSamples: Option<int>, bound: nat)
    requires file.Some? ==> ChoicesAtMost(file.value, bound)
    requires Load(file, maxSamples).Ok?
    ensures forall j :: 0 <= j < |Load(file, maxSamples).value| ==>
      |Load(file, maxSamples).value[j].choices| <= bound
  {
    LoadFromChoicesAtMost(file.value, maxSamples, 0, 0, bound);
  }
}
