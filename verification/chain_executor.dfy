/** The chain executor: runs the evaluation chains in their fixed order,
    isolates the failure of each chain, standardises every result, and
    derives the summary, the strength/weakness and priority buckets, the
    grade bands, the type alignment and the report status. */
module ChainExecutor {
  import opened Wrappers
  import opened Text
  import opened Values
  import opened Scores

  /** The chains in the order they are registered, and therefore run. */
  const Registry: seq<string> := [
    "business_value", "accessibility", "innovation", "cost_analysis",
    "network_effect", "social_impact", "sustainability",
    "technical_feasibility", "user_engagement"
  ]

  lemma RegistryDistinct()
    ensures |Registry| == 9
    ensures forall i, j :: 0 <= i < j < |Registry| ==> Registry[i] != Registry[j]
  {
  }

  /** What one chain's `invoke` does with the shared input: its result
      dictionary, or the text of the exception it raised. The executor
      cannot see inside a chain; the chains themselves are modelled in
      their own modules. */
  type Runner = string -> Result<Dict>

  const NoReasoning: string := "평가 근거가 제공되지 않았습니다."
  const ErrorLead: string := "평가 중 오류 발생: "
  const AskAdmin: string := "시스템 관리자에게 문의하세요"
  const FloatError: string := "could not convert score to float"

  // ---------------------------------------------------------------------
  // One chain's record
  // ---------------------------------------------------------------------

  /** How a record came about: standardised from the chain's own result
      (with every non-standard key kept aside), or the error fallback. */
  datatype Origin =
    | Standardized(chainName: string, specific: Dict)
    | ErrorFallback(error: string)

  /** One entry of `chain_results`. */
  datatype Record = Record(
    score: real,
    reasoning: string,
    suggestions: seq<Value>,
    projectType: Value,
    evaluationMethod: Value,
    executionTime: real,
    origin: Origin)

  type Results = seq<(string, Record)>

  predicate AllInRange(rs: Results) {
    forall i :: 0 <= i < |rs| ==> InRange(rs[i].1.score)
  }

  /** The keys standardisation takes over into the record itself. */
  predicate Standard(k: string) {
    k == "score" || k == "reasoning" || k == "suggestions" ||
    k == "project_type" || k == "evaluation_method"
  }

  /** The chain-specific data: every entry under a non-standard key, in
      order. */
  function Specific(d: Dict): (r: Dict)
    ensures forall i :: 0 <= i < |r| ==> !Standard(r[i].0)
  {
    if |d| == 0 then []
    else if Standard(d[0].0) then Specific(d[1..])
    else [d[0]] + Specific(d[1..])
  }

  /** Nothing is lost: a non-standard key finds in the chain-specific data
      exactly what it found in the chain's result. */
  lemma {:induction false} SpecificLookup(d: Dict, k: string)
    ensures Get(Specific(d), k) == if Standard(k) then None else Get(d, k)
  {
    if Standard(k) {
      GetMissing(Specific(d), k);
    } else if |d| > 0 {
      SpecificLookup(d[1..], k);
    }
  }

  /** The suggestions as the standard record keeps them. */
  function SuggestionsOf(v: Value): (r: seq<Value>)
    ensures v.VList? ==> r == v.items
    ensures v.VStr? ==> r == [v]
    ensures !v.VList? && !v.VStr? ==> r == []
  {
    match v
    case VList(items) => items
    case VStr(_) => [v]
    case _ => []
  }

  /** `_standardize_chain_result`, then the execution time; `Failure` is the
      exception `float(score)` raises, which the executor's `try` catches. */
  function Standardize(d: Dict, name: string, time: real): (r: Result<Record>)
    ensures r.Failure? <==> ToFloat(GetOr(d, "score", VNum(NeutralScore))).None?
    ensures r.Success? ==> InRange(r.value.score) && r.value.origin == Standardized(name, Specific(d))
  {
    match ToFloat(GetOr(d, "score", VNum(NeutralScore)))
    case None => Failure(FloatError)
    case Some(x) =>
      Success(Record(
        Clamp(x, MinScore, MaxScore),
        Show(GetOr(d, "reasoning", VStr(NoReasoning))),
        SuggestionsOf(GetOr(d, "suggestions", VList([]))),
        GetOr(d, "project_type", VStr("balanced")),
        GetOr(d, "evaluation_method", VStr(name)),
        time,
        Standardized(name, Specific(d))))
  }

  /** What a successful standardisation keeps of the chain's result. */
  lemma StandardizeKeeps(d: Dict, name: string, time: real)
    requires Standardize(d, name, time).Success?
    ensures var r := Standardize(d, name, time).value;
      && (!HasKey(d, "score") ==> r.score == NeutralScore)
      && (ToFloat(GetOr(d, "score", VNone)).Some? ==> r.score == ToScore(GetOr(d, "score", VNone), NeutralScore))
      && (Get(d, "reasoning").None? ==> r.reasoning == NoReasoning)
      && (Get(d, "suggestions").None? ==> r.suggestions == [])
      && (forall k :: !Standard(k) ==> Get(r.origin.specific, k) == Get(d, k))
  {
    forall k | !Standard(k)
      ensures Get(Standardize(d, name, time).value.origin.specific, k) == Get(d, k)
    {
      SpecificLookup(d, k);
    }
  }

  /** The record of a chain that raised. */
  function Fallback(input: Dict, error: string, time: real): (r: Record)
    ensures r.score == NeutralScore && r.origin == ErrorFallback(error)
  {
    Record(NeutralScore, ErrorLead + error, [VStr(AskAdmin)],
           GetOr(input, "project_type", VStr("balanced")),
           VStr("error_fallback"), time, ErrorFallback(error))
  }

  /** Running one chain and standardising its result; either step may
      raise. */
  function Attempt(run: Runner, name: string, time: real): Result<Record> {
    match run(name)
    case Failure(e) => Failure(e)
    case Success(d) => Standardize(d, name, time)
  }

  /** The record the executor keeps for one chain. */
  function Outcome(input: Dict, run: Runner, elapsed: string -> real, name: string): (r: Record)
    ensures InRange(r.score)
  {
    match Attempt(run, name, elapsed(name))
    case Success(rec) => rec
    case Failure(e) => Fallback(input, e, elapsed(name))
  }

  /** A failing chain gets the neutral fallback carrying its error and the
      input's project type, and a chain's record depends on nothing but
      that chain's own run: one chain's failure never reaches another. */
  lemma FailureIsIsolated(input: Dict, run: Runner, other: Runner, elapsed: string -> real, name: string)
    requires run(name) == other(name)
    ensures Outcome(input, run, elapsed, name) == Outcome(input, other, elapsed, name)
    ensures run(name).Failure? ==>
      var r := Outcome(input, run, elapsed, name);
      && r.score == NeutralScore
      && r.evaluationMethod == VStr("error_fallback")
      && r.origin == ErrorFallback(run(name).error)
      && r.projectType == GetOr(input, "project_type", VStr("balanced"))
  {
  }

  /** Whether running the chain (or standardising its result) raised. */
  predicate Fails(run: Runner, elapsed: string -> real, name: string) {
    Attempt(run, name, elapsed(name)).Failure?
  }

  /** How many of the chains named failed. */
  function Failures(run: Runner, elapsed: string -> real, names: seq<string>): (n: nat)
    ensures n <= |names|
  {
    if |names| == 0 then 0
    else
      var last := names[|names| - 1];
      Failures(run, elapsed, names[..|names| - 1])
      + (if Fails(run, elapsed, last) then 1 else 0)
  }

  // ---------------------------------------------------------------------
  // Scores as `get_scores` and `get_average_score` read them
  // ---------------------------------------------------------------------

  /** `get_scores` for one entry; `Failure` is the exception `float`
      raises on a score it cannot convert. */
  function ScoreOf(v: Value): (r: Result<real>)
    ensures r.Success? ==> InRange(r.value)
    ensures !v.VMap? ==> r == Success(NeutralScore)
    ensures v.VMap? && Get(v.entries, "score").None? ==> r == Success(NeutralScore)
    ensures v.VMap? && Get(v.entries, "score") == Some(VNone) ==> r == Success(NeutralScore)
    ensures v.VMap? && Get(v.entries, "score").Some? && Get(v.entries, "score") != Some(VNone) ==>
      (r.Failure? <==> ToFloat(Get(v.entries, "score").value).None?) &&
      (r.Success? ==> r.value == ToScore(Get(v.entries, "score").value, NeutralScore))
  {
    if !v.VMap? then Success(NeutralScore)
    else
      var s := GetOr(v.entries, "score", VNum(NeutralScore));
      if s.VNone? then Success(NeutralScore)
      else if ToFloat(s).None? then Failure(FloatError)
      else Success(Clamp(ToFloat(s).value, MinScore, MaxScore))
  }

  /** `get_scores`: one score per entry, in order. */
  function GetScores(results: Dict): (r: Result<seq<(string, real)>>)
    ensures r.Success? <==> forall i :: 0 <= i < |results| ==> ScoreOf(results[i].1).Success?
    ensures r.Success? ==> |r.value| == |results|
    ensures r.Success? ==> forall i :: 0 <= i < |results| ==>
      r.value[i].0 == results[i].0 && r.value[i].1 == ScoreOf(results[i].1).value
  {
    if |results| == 0 then Success([])
    else
      var n := |results| - 1;
      match GetScores(results[..n])
      case Failure(e) => Failure(e)
      case Success(front) =>
        match ScoreOf(results[n].1)
        case Failure(e) => Failure(e)
        case Success(s) => Success(front + [(results[n].0, s)])
  }

  function ScoreValues(ps: seq<(string, real)>): (r: seq<real>)
    ensures |r| == |ps|
    ensures forall i :: 0 <= i < |ps| ==> r[i] == ps[i].1
  {
    seq(|ps|, i requires 0 <= i < |ps| => ps[i].1)
  }

  /** The plain mean of the scores, or 5.0 when there are none. */
  function MeanOr(ps: seq<(string, real)>): real {
    if |ps| == 0 then NeutralScore else Mean(ScoreValues(ps))
  }

  lemma MeanOrInRange(ps: seq<(string, real)>)
    requires forall i :: 0 <= i < |ps| ==> InRange(ps[i].1)
    ensures InRange(MeanOr(ps))
  {
    if |ps| > 0 {
      MeanBetween(ScoreValues(ps), MinScore, MaxScore);
    }
  }

  /** `get_average_score` */
  function AverageScore(results: Dict): (r: Result<real>)
    ensures r.Success? <==> GetScores(results).Success?
    ensures r.Success? ==> InRange(r.value)
    ensures |results| == 0 ==> r == Success(NeutralScore)
  {
    match GetScores(results)
    case Failure(e) => Failure(e)
    case Success(ps) => MeanOrInRange(ps); Success(MeanOr(ps))
  }

  // ---------------------------------------------------------------------
  // The records laid out as the executor's dictionaries
  // ---------------------------------------------------------------------

  /** A record as the dictionary the executor stores. */
  function AsDict(r: Record): Dict {
    var head := [
      ("score", VNum(r.score)),
      ("reasoning", VStr(r.reasoning)),
      ("suggestions", VList(r.suggestions)),
      ("project_type", r.projectType),
      ("evaluation_method", r.evaluationMethod)];
    match r.origin
    case Standardized(name, specific) =>
      head + [("chain_name", VStr(name))]
      + (if |specific| > 0 then [("chain_specific_data", VMap(specific))] else [])
      + [("execution_time", VNum(r.executionTime))]
    case ErrorFallback(e) =>
      head + [("execution_time", VNum(r.executionTime)), ("error", VStr(e))]
  }

  function ResultsDict(rs: Results): (d: Dict)
    ensures |d| == |rs|
    ensures forall i :: 0 <= i < |rs| ==> d[i] == (rs[i].0, VMap(AsDict(rs[i].1)))
  {
    seq(|rs|, i requires 0 <= i < |rs| => (rs[i].0, VMap(AsDict(rs[i].1))))
  }

  function Scored(rs: Results): (ps: seq<(string, real)>)
    ensures |ps| == |rs|
    ensures forall i :: 0 <= i < |rs| ==> ps[i] == (rs[i].0, rs[i].1.score)
  {
    seq(|rs|, i requires 0 <= i < |rs| => (rs[i].0, rs[i].1.score))
  }

  /** `get_scores` reads back exactly the score a record holds. */
  lemma ScoreOfRecord(r: Record)
    requires InRange(r.score)
    ensures ScoreOf(VMap(AsDict(r))) == Success(r.score)
  {
    assert AsDict(r)[0] == ("score", VNum(r.score));
  }

  /** The average the metadata reports is `get_average_score` of the
      stored dictionaries. */
  lemma AverageOfRecords(rs: Results)
    requires AllInRange(rs)
    ensures GetScores(ResultsDict(rs)) == Success(Scored(rs))
    ensures AverageScore(ResultsDict(rs)) == Success(MeanOr(Scored(rs)))
  {
    var d := ResultsDict(rs);
    forall i | 0 <= i < |d|
      ensures ScoreOf(d[i].1) == Success(rs[i].1.score)
    {
      ScoreOfRecord(rs[i].1);
    }
    assert GetScores(d).value == Scored(rs);
  }

  // ---------------------------------------------------------------------
  // Summary
  // ---------------------------------------------------------------------

  /** `max(scores.items(), key=score)`: the first entry with the highest
      score. */
  function FirstMax(ps: seq<(string, real)>): (k: nat)
    requires |ps| > 0
    ensures k < |ps|
    ensures forall j :: 0 <= j < |ps| ==> ps[j].1 <= ps[k].1
    ensures forall j :: 0 <= j < k ==> ps[j].1 < ps[k].1
  {
    if |ps| == 1 then 0
    else
      var k := FirstMax(ps[..|ps| - 1]);
      if ps[|ps| - 1].1 > ps[k].1 then |ps| - 1 else k
  }

  /** `min(scores.items(), key=score)`: the first entry with the lowest
      score. */
  function FirstMin(ps: seq<(string, real)>): (k: nat)
    requires |ps| > 0
    ensures k < |ps|
    ensures forall j :: 0 <= j < |ps| ==> ps[k].1 <= ps[j].1
    ensures forall j :: 0 <= j < k ==> ps[k].1 < ps[j].1
  {
    if |ps| == 1 then 0
    else
      var k := FirstMin(ps[..|ps| - 1]);
      if ps[|ps| - 1].1 < ps[k].1 then |ps| - 1 else k
  }

  function TotalSuggestions(rs: Results): nat {
    if |rs| == 0 then 0
    else TotalSuggestions(rs[..|rs| - 1]) + |rs[|rs| - 1].1.suggestions|
  }

  datatype Summary = Summary(
    scores: seq<(string, real)>,
    average: real,
    highest: Option<(string, real)>,
    lowest: Option<(string, real)>,
    totalSuggestions: nat)

  /** `_generate_execution_summary`: on a tie `max` and `min` keep the
      first chain in order, which FirstMax and FirstMin pin down. */
  function Summarize(rs: Results): (s: Summary)
    requires AllInRange(rs)
    ensures s.scores == Scored(rs)
    ensures InRange(s.average)
    ensures |rs| == 0 ==> s == Summary([], NeutralScore, None, None, 0)
    ensures |rs| > 0 ==>
      s.highest.Some? && s.highest.value in s.scores &&
      forall i :: 0 <= i < |rs| ==> rs[i].1.score <= s.highest.value.1
    ensures |rs| > 0 ==>
      s.lowest.Some? && s.lowest.value in s.scores &&
      forall i :: 0 <= i < |rs| ==> s.lowest.value.1 <= rs[i].1.score
    ensures |rs| > 0 ==>
      s.highest == Some(Scored(rs)[FirstMax(Scored(rs))]) &&
      s.lowest == Some(Scored(rs)[FirstMin(Scored(rs))])
    ensures s.average == MeanOr(Scored(rs))
    ensures s.totalSuggestions == TotalSuggestions(rs)
  {
    if |rs| == 0 then Summary([], NeutralScore, None, None, 0)
    else
      var ps := Scored(rs);
      MeanOrInRange(ps);
      Summary(ps, Mean(ScoreValues(ps)), Some(ps[FirstMax(ps)]), Some(ps[FirstMin(ps)]), TotalSuggestions(rs))
  }

  // ---------------------------------------------------------------------
  // Execution
  // ---------------------------------------------------------------------

  /** One call of the progress callback: (chain name, step, total). */
  datatype Step = Step(name: string, index: nat, total: nat)

  datatype Metadata = Metadata(
    totalTime: real,
    errorCount: nat,
    completedChains: int,
    totalChains: nat,
    average: real,
    projectType: Value)

  datatype Execution = Execution(
    steps: seq<Step>,
    results: Results,
    summary: Summary,
    metadata: Metadata)

  /** How many of the names `failed` marks. */
  function Count(failed: string -> bool, names: seq<string>): (n: nat)
    ensures n <= |names|
  {
    if |names| == 0 then 0
    else Count(failed, names[..|names| - 1]) + (if failed(names[|names| - 1]) then 1 else 0)
  }

  lemma {:induction false} CountFailures(failed: string -> bool, run: Runner, elapsed: string -> real, names: seq<string>)
    requires forall name :: failed(name) == Fails(run, elapsed, name)
    ensures Count(failed, names) == Failures(run, elapsed, names)
  {
    if |names| > 0 {
      CountFailures(failed, run, elapsed, names[..|names| - 1]);
    }
  }

  /** The loop of `execute_all` over the chains named, in order: the
      callback is told before each one when it is set, every chain gets
      the record `outcome` gives it, and those `failed` marks are
      counted; a failing chain never stops the loop. */
  method RunChains(names: seq<string>, notify: bool, outcome: string -> Record, failed: string -> bool)
    returns (steps: seq<Step>, results: Results, errors: nat)
    ensures |steps| == (if notify then |names| else 0)
    ensures forall i :: 0 <= i < |steps| ==> steps[i] == Step(names[i], i, |names|)
    ensures |results| == |names|
    ensures forall i :: 0 <= i < |names| ==> results[i] == (names[i], outcome(names[i]))
    ensures errors == Count(failed, names)
  {
    steps, results, errors := [], [], 0;
    for i := 0 to |names|
      invariant |steps| == (if notify then i else 0)
      invariant forall k :: 0 <= k < |steps| ==> steps[k] == Step(names[k], k, |names|)
      invariant |results| == i
      invariant forall k :: 0 <= k < i ==> results[k] == (names[k], outcome(names[k]))
      invariant errors == Count(failed, names[..i])
    {
      var name := names[i];
      if notify {
        steps := steps + [Step(name, i, |names|)];
      }
      results := results + [(name, outcome(name))];
      if failed(name) {
        errors := errors + 1;
      }
      assert names[..i + 1][..i] == names[..i];
    }
    assert names[..|names|] == names;
  }

  /** `execute_all` over the registered chains, with the summary and the
      metadata. */
  method ExecuteAll(input: Dict, run: Runner, elapsed: string -> real, notify: bool, totalTime: real)
    returns (x: Execution)
    ensures |x.steps| == (if notify then |Registry| else 0)
    ensures forall i :: 0 <= i < |x.steps| ==> x.steps[i] == Step(Registry[i], i, |Registry|)
    ensures |x.results| == |Registry|
    ensures forall i :: 0 <= i < |Registry| ==>
      x.results[i] == (Registry[i], Outcome(input, run, elapsed, Registry[i]))
    ensures x.metadata.errorCount == Failures(run, elapsed, Registry)
    ensures x.metadata.totalChains == |Registry|
    ensures 0 <= x.metadata.completedChains == |Registry| - x.metadata.errorCount
    ensures AllInRange(x.results)
    ensures AverageScore(ResultsDict(x.results)) == Success(x.metadata.average)
    ensures x.summary == Summarize(x.results)
    ensures x.metadata.projectType == GetOr(input, "project_type", VStr("balanced"))
    ensures x.metadata.totalTime == totalTime
  {
    var failed := name => Fails(run, elapsed, name);
    var steps, results, errors := RunChains(Registry, notify, name => Outcome(input, run, elapsed, name), failed);
    CountFailures(failed, run, elapsed, Registry);
    AverageOfRecords(results);
    var meta := Metadata(totalTime, errors, |Registry| - errors, |Registry|,
                         MeanOr(Scored(results)), GetOr(input, "project_type", VStr("balanced")));
    x := Execution(steps, results, Summarize(results), meta);
  }

  // ---------------------------------------------------------------------
  // Strengths and weaknesses
  // ---------------------------------------------------------------------

  datatype Area = Area(name: string, score: real, reasoning: string)

  function Areas(rs: Results): (r: seq<Area>)
    ensures |r| == |rs|
    ensures forall i :: 0 <= i < |rs| ==> r[i] == Area(rs[i].0, rs[i].1.score, rs[i].1.reasoning)
  {
    seq(|rs|, i requires 0 <= i < |rs| => Area(rs[i].0, rs[i].1.score, rs[i].1.reasoning))
  }

  /** Whether `a` may stand before `b`: by descending or ascending score. */
  predicate Ahead(a: Area, b: Area, descending: bool) {
    if descending then a.score >= b.score else a.score <= b.score
  }

  predicate SortedBy(xs: seq<Area>, descending: bool) {
    forall i, j :: 0 <= i < j < |xs| ==> Ahead(xs[i], xs[j], descending)
  }

  lemma SortedTail(xs: seq<Area>, descending: bool)
    requires |xs| > 0 && SortedBy(xs, descending)
    ensures SortedBy(xs[1..], descending)
    ensures forall y :: y in xs[1..] ==> Ahead(xs[0], y, descending)
  {
    forall y | y in xs[1..] ensures Ahead(xs[0], y, descending) {
      var j :| 0 <= j < |xs| - 1 && xs[1..][j] == y;
      assert xs[j + 1] == y;
    }
  }

  lemma ConsSorted(y: Area, rest: seq<Area>, descending: bool)
    requires SortedBy(rest, descending)
    requires forall z :: z in rest ==> Ahead(y, z, descending)
    ensures SortedBy([y] + rest, descending)
  {
    var r := [y] + rest;
    forall i, j | 0 <= i < j < |r| ensures Ahead(r[i], r[j], descending) {
      assert r[j] == rest[j - 1];
      if i > 0 {
        assert r[i] == rest[i - 1];
      } else {
        assert rest[j - 1] in rest;
      }
    }
  }

  /** Inserting before the first element `x` may stand ahead of; an
      earlier element stays ahead of a later one with the same score, as in
      Python's stable sort. */
  function Insert(x: Area, xs: seq<Area>, descending: bool): (r: seq<Area>)
    requires SortedBy(xs, descending)
    ensures multiset(r) == multiset(xs) + multiset{x}
    ensures SortedBy(r, descending)
  {
    if |xs| == 0 then [x]
    else if Ahead(x, xs[0], descending) then
      SortedTail(xs, descending);
      ConsSorted(x, xs, descending);
      [x] + xs
    else
      SortedTail(xs, descending);
      assert xs == [xs[0]] + xs[1..];
      var rest := Insert(x, xs[1..], descending);
      assert forall y :: y in rest ==> Ahead(xs[0], y, descending) by {
        forall y | y in rest ensures Ahead(xs[0], y, descending) {
          assert y in multiset(rest);
        }
      }
      ConsSorted(xs[0], rest, descending);
      [xs[0]] + rest
  }

  /** `list.sort(key=score, reverse=descending)` */
  function SortAreas(xs: seq<Area>, descending: bool): (r: seq<Area>)
    ensures multiset(r) == multiset(xs)
    ensures SortedBy(r, descending)
  {
    if |xs| == 0 then []
    else
      assert xs == [xs[0]] + xs[1..];
      Insert(xs[0], SortAreas(xs[1..], descending), descending)
  }

  /** The areas with score `score`, in the order they come. */
  function WithScore(xs: seq<Area>, score: real): (r: seq<Area>)
    ensures forall a :: a in r ==> a in xs && a.score == score
  {
    if |xs| == 0 then []
    else (if xs[0].score == score then [xs[0]] else []) + WithScore(xs[1..], score)
  }

  lemma WithScoreCons(a: Area, rest: seq<Area>, score: real)
    ensures WithScore([a] + rest, score) == (if a.score == score then [a] else []) + WithScore(rest, score)
  {
    assert ([a] + rest)[1..] == rest;
  }

  /** Inserting puts the new area ahead of every area with its own score
      and leaves the order of the others alone. */
  lemma {:induction false} InsertWithScore(x: Area, xs: seq<Area>, descending: bool, score: real)
    requires SortedBy(xs, descending)
    ensures WithScore(Insert(x, xs, descending), score) ==
      (if x.score == score then [x] else []) + WithScore(xs, score)
    decreases |xs|
  {
    if |xs| == 0 {
      WithScoreCons(x, [], score);
    } else if Ahead(x, xs[0], descending) {
      assert Insert(x, xs, descending) == [x] + xs;
      WithScoreCons(x, xs, score);
    } else {
      SortedTail(xs, descending);
      var rest := Insert(x, xs[1..], descending);
      assert Insert(x, xs, descending) == [xs[0]] + rest;
      InsertWithScore(x, xs[1..], descending, score);
      WithScoreCons(xs[0], rest, score);
      WithScoreCons(xs[0], xs[1..], score);
      assert xs == [xs[0]] + xs[1..];
      var tail := WithScore(xs[1..], score);
      if x.score == score {
        assert xs[0].score != score;
        assert WithScore(rest, score) == [x] + tail;
        assert WithScore(xs, score) == tail;
      } else if xs[0].score == score {
        assert WithScore(rest, score) == tail;
        assert WithScore(xs, score) == [xs[0]] + tail;
      } else {
        assert WithScore(rest, score) == tail;
        assert WithScore(xs, score) == tail;
      }
    }
  }

  /** The sort is stable, as Python's is: areas with equal scores keep the
      order they had, so tied chains stay in registry order. */
  lemma {:induction false} SortAreasStable(xs: seq<Area>, descending: bool, score: real)
    ensures WithScore(SortAreas(xs, descending), score) == WithScore(xs, score)
    decreases |xs|
  {
    if |xs| > 0 {
      SortAreasStable(xs[1..], descending, score);
      InsertWithScore(xs[0], SortAreas(xs[1..], descending), descending, score);
    }
  }

  /** Strong: score at least 7; weak: score at most 4. */
  predicate Picked(a: Area, strong: bool) {
    if strong then a.score >= 7.0 else a.score <= 4.0
  }

  function Pick(xs: seq<Area>, strong: bool): (r: seq<Area>)
    ensures forall a :: a in r <==> a in xs && Picked(a, strong)
  {
    if |xs| == 0 then []
    else (if Picked(xs[0], strong) then [xs[0]] else []) + Pick(xs[1..], strong)
  }

  /** The strength list, best first. */
  function Strengths(rs: Results): seq<Area> {
    SortAreas(Pick(Areas(rs), true), true)
  }

  /** The weakness list, worst first. */
  function Weaknesses(rs: Results): seq<Area> {
    SortAreas(Pick(Areas(rs), false), false)
  }

  /** A chain is a strength iff it scored at least 7 and a weakness iff it
      scored at most 4, so none is both; strengths come best first and
      weaknesses worst first. */
  lemma StrengthsAndWeaknesses(rs: Results)
    ensures forall a :: a in Strengths(rs) <==> a in Areas(rs) && a.score >= 7.0
    ensures forall a :: a in Weaknesses(rs) <==> a in Areas(rs) && a.score <= 4.0
    ensures forall a :: a in Strengths(rs) ==> a !in Weaknesses(rs)
    ensures SortedBy(Strengths(rs), true) && SortedBy(Weaknesses(rs), false)
  {
    var s := Pick(Areas(rs), true);
    var w := Pick(Areas(rs), false);
    forall a ensures a in Strengths(rs) <==> a in s {
      assert a in Strengths(rs) <==> a in multiset(Strengths(rs));
    }
    forall a ensures a in Weaknesses(rs) <==> a in w {
      assert a in Weaknesses(rs) <==> a in multiset(Weaknesses(rs));
    }
  }

  // ---------------------------------------------------------------------
  // Prioritised suggestions
  // ---------------------------------------------------------------------

  datatype Priority = High | Medium | Low

  /** Suggestions of a chain scoring at most 4 are high priority, at most 6
      medium, and otherwise low. */
  function PriorityOf(score: real): (p: Priority)
    ensures p == High <==> score <= 4.0
    ensures p == Medium <==> 4.0 < score <= 6.0
    ensures p == Low <==> score > 6.0
  {
    if score <= 4.0 then High else if score <= 6.0 then Medium else Low
  }

  /** A suggestion as the report lists it: "[chain] suggestion". */
  function Tag(name: string, s: Value): string {
    "[" + name + "] " + Show(s)
  }

  function Tags(name: string, ss: seq<Value>): (r: seq<string>)
    ensures |r| == |ss|
    ensures forall k :: 0 <= k < |ss| ==> r[k] == Tag(name, ss[k])
  {
    seq(|ss|, k requires 0 <= k < |ss| => Tag(name, ss[k]))
  }

  datatype Priorities = Priorities(high: seq<string>, medium: seq<string>, low: seq<string>)

  function Bucket(p: Priorities, q: Priority): seq<string> {
    match q
    case High => p.high
    case Medium => p.medium
    case Low => p.low
  }

  /** Files each suggestion, one at a time, under the chain's priority. */
  function Dispatch(p: Priorities, name: string, score: real, ss: seq<Value>): Priorities
    decreases |ss|
  {
    if |ss| == 0 then p
    else
      var t := Tag(name, ss[0]);
      var p' := match PriorityOf(score)
        case High => p.(high := p.high + [t])
        case Medium => p.(medium := p.medium + [t])
        case Low => p.(low := p.low + [t]);
      Dispatch(p', name, score, ss[1..])
  }

  /** `_prioritize_suggestions`: chain by chain, suggestion by
      suggestion. */
  function Prioritize(rs: Results): Priorities {
    if |rs| == 0 then Priorities([], [], [])
    else
      var last := rs[|rs| - 1];
      Dispatch(Prioritize(rs[..|rs| - 1]), last.0, last.1.score, last.1.suggestions)
  }

  /** Reference definition: a bucket is the tagged suggestions of exactly
      the chains in that priority band, in chain order. */
  function Collected(rs: Results, q: Priority): seq<string> {
    if |rs| == 0 then []
    else
      var last := rs[|rs| - 1];
      Collected(rs[..|rs| - 1], q)
      + (if PriorityOf(last.1.score) == q then Tags(last.0, last.1.suggestions) else [])
  }

  lemma {:induction false} DispatchAppends(p: Priorities, name: string, score: real, ss: seq<Value>, q: Priority)
    ensures Bucket(Dispatch(p, name, score, ss), q) ==
      Bucket(p, q) + (if PriorityOf(score) == q then Tags(name, ss) else [])
    decreases |ss|
  {
    if |ss| > 0 {
      var t := Tag(name, ss[0]);
      var p' := match PriorityOf(score)
        case High => p.(high := p.high + [t])
        case Medium => p.(medium := p.medium + [t])
        case Low => p.(low := p.low + [t]);
      DispatchAppends(p', name, score, ss[1..], q);
      if PriorityOf(score) == q {
        assert Tags(name, ss) == [t] + Tags(name, ss[1..]);
      }
    }
  }

  /** The per-suggestion dispatch agrees with the band-by-band
      reference. */
  lemma {:induction false} PrioritizeIsCollected(rs: Results, q: Priority)
    ensures Bucket(Prioritize(rs), q) == Collected(rs, q)
  {
    if |rs| > 0 {
      var last := rs[|rs| - 1];
      PrioritizeIsCollected(rs[..|rs| - 1], q);
      DispatchAppends(Prioritize(rs[..|rs| - 1]), last.0, last.1.score, last.1.suggestions, q);
    }
  }

  lemma {:induction false} CollectedCount(rs: Results)
    ensures |Collected(rs, High)| + |Collected(rs, Medium)| + |Collected(rs, Low)| == TotalSuggestions(rs)
  {
    if |rs| > 0 {
      CollectedCount(rs[..|rs| - 1]);
    }
  }

  /** Suggestion `k` of chain `i` is filed under priority `q`. */
  predicate Filed(rs: Results, q: Priority, t: string) {
    exists i, k :: 0 <= i < |rs| && 0 <= k < |rs[i].1.suggestions|
      && PriorityOf(rs[i].1.score) == q && t == Tag(rs[i].0, rs[i].1.suggestions[k])
  }

  lemma {:induction false} CollectedSound(rs: Results, q: Priority, t: string)
    requires t in Collected(rs, q)
    ensures Filed(rs, q, t)
  {
    var n := |rs| - 1;
    var front := rs[..n];
    if t in Collected(front, q) {
      CollectedSound(front, q, t);
      var i, k :| 0 <= i < |front| && 0 <= k < |front[i].1.suggestions|
        && PriorityOf(front[i].1.score) == q && t == Tag(front[i].0, front[i].1.suggestions[k]);
      assert rs[i] == front[i];
    } else {
      var tail := Tags(rs[n].0, rs[n].1.suggestions);
      assert PriorityOf(rs[n].1.score) == q && t in tail;
      var k :| 0 <= k < |tail| && tail[k] == t;
      assert t == Tag(rs[n].0, rs[n].1.suggestions[k]);
    }
  }

  lemma {:induction false} CollectedComplete(rs: Results, q: Priority, i: int, k: int)
    requires 0 <= i < |rs| && 0 <= k < |rs[i].1.suggestions|
    requires PriorityOf(rs[i].1.score) == q
    ensures Tag(rs[i].0, rs[i].1.suggestions[k]) in Collected(rs, q)
  {
    var n := |rs| - 1;
    var front := rs[..n];
    if i < n {
      assert front[i] == rs[i];
      CollectedComplete(front, q, i, k);
    } else {
      assert Tags(rs[n].0, rs[n].1.suggestions)[k] == Tag(rs[i].0, rs[i].1.suggestions[k]);
    }
  }

  /** Every suggestion lands in exactly the bucket of its chain's band,
      tagged with the chain's name, and no suggestion is lost or
      duplicated in count. */
  lemma PrioritizeBuckets(rs: Results, q: Priority, t: string)
    ensures t in Bucket(Prioritize(rs), q) <==> Filed(rs, q, t)
    ensures |Prioritize(rs).high| + |Prioritize(rs).medium| + |Prioritize(rs).low| == TotalSuggestions(rs)
  {
    PrioritizeIsCollected(rs, q);
    if t in Collected(rs, q) {
      CollectedSound(rs, q, t);
    }
    if Filed(rs, q, t) {
      var i, k :| 0 <= i < |rs| && 0 <= k < |rs[i].1.suggestions|
        && PriorityOf(rs[i].1.score) == q && t == Tag(rs[i].0, rs[i].1.suggestions[k]);
      CollectedComplete(rs, q, i, k);
    }
    PrioritizeIsCollected(rs, High);
    PrioritizeIsCollected(rs, Medium);
    PrioritizeIsCollected(rs, Low);
    CollectedCount(rs);
  }

  // ---------------------------------------------------------------------
  // Grades and status
  // ---------------------------------------------------------------------

  datatype Grade = Excellent | Good | Fair | Poor {
    /** The label the report shows. */
    function Label(): string {
      match this
      case Excellent => "우수"
      case Good => "양호"
      case Fair => "보통"
      case Poor => "미흡"
    }
    function Description(): string {
      match this
      case Excellent => "매우 높은 수준의 성과"
      case Good => "적절한 수준의 성과"
      case Fair => "개선이 필요한 수준"
      case Poor => "즉시 개선이 필요한 수준"
    }
    /** Position on the scale, 3 for the best band. */
    function Rank(): nat {
      match this
      case Excellent => 3
      case Good => 2
      case Fair => 1
      case Poor => 0
    }
  }

  /** Bands: at least 8, at least 6, at least 4, below 4. */
  function GradeOf(score: real): (g: Grade)
    ensures g == Excellent <==> score >= 8.0
    ensures g == Good <==> 6.0 <= score < 8.0
    ensures g == Fair <==> 4.0 <= score < 6.0
    ensures g == Poor <==> score < 4.0
  {
    if score >= 8.0 then Excellent
    else if score >= 6.0 then Good
    else if score >= 4.0 then Fair
    else Poor
  }

  /** A higher score never earns a lower grade, and never a more urgent
      priority for its suggestions. */
  lemma BandsMonotone(a: real, b: real)
    requires a <= b
    ensures GradeOf(a).Rank() <= GradeOf(b).Rank()
    ensures PriorityOf(b) == High ==> PriorityOf(a) == High
    ensures PriorityOf(a) == Low ==> PriorityOf(b) == Low
  {
  }

  const Complete: string := "완료"

  /** The report's evaluation status. */
  function Status(errorCount: nat): (r: string)
    ensures r == Complete <==> errorCount == 0
    ensures errorCount > 0 ==> Contains(r, NatToString(errorCount))
  {
    if errorCount == 0 then Complete
    else
      var r := "부분 완료 (" + NatToString(errorCount) + "개 오류)";
      assert r[0] != Complete[0];
      assert OccursAt(r, NatToString(errorCount), 7);
      r
  }

  /** The status says complete exactly when every chain completed. */
  lemma StatusMeansAllCompleted(x: Execution)
    requires x.metadata.completedChains == x.metadata.totalChains - x.metadata.errorCount
    ensures Status(x.metadata.errorCount) == Complete <==> x.metadata.completedChains == x.metadata.totalChains
  {
  }

  // ---------------------------------------------------------------------
  // Project type analysis
  // ---------------------------------------------------------------------

  const PainkillerFocus: seq<string> := ["business_value", "technical_feasibility", "cost_analysis"]
  const VitaminFocus: seq<string> := ["user_engagement", "innovation", "social_impact"]

  /** The type-specific focus areas; any other type (and "balanced")
      focuses on every chain. */
  function FocusAreas(pt: Value, names: seq<string>): seq<string> {
    if pt == VStr("painkiller") then PainkillerFocus
    else if pt == VStr("vitamin") then VitaminFocus
    else names
  }

  function Recommendations(pt: Value): seq<string> {
    if pt == VStr("painkiller") then [
      "핵심 문제 해결 능력 강화에 집중하세요",
      "기술적 실현가능성과 비용 효율성을 우선적으로 검토하세요",
      "명확한 비즈니스 가치 제안을 구체화하세요"]
    else if pt == VStr("vitamin") then [
      "사용자 경험과 혁신성 향상에 집중하세요",
      "사회적 영향과 장기적 가치 창출을 고려하세요",
      "사용자 참여도를 높이는 방안을 모색하세요"]
    else if pt == VStr("balanced") then [
      "모든 평가 영역의 균형잡힌 발전을 추구하세요",
      "약점 영역을 우선적으로 개선하세요",
      "강점 영역을 활용한 시너지 효과를 모색하세요"]
    else []
  }

  function Names(ps: seq<(string, real)>): (r: seq<string>)
    ensures |r| == |ps|
    ensures forall i :: 0 <= i < |ps| ==> r[i] == ps[i].0
  {
    seq(|ps|, i requires 0 <= i < |ps| => ps[i].0)
  }

  /** `scores.get(name, default)` */
  function ScoreFor(ps: seq<(string, real)>, name: string, default: real): (r: real)
    ensures name !in Names(ps) ==> r == default
    ensures name in Names(ps) ==> exists i :: 0 <= i < |ps| && ps[i] == (name, r)
  {
    if |ps| == 0 then default
    else if ps[0].0 == name then ps[0].1
    else
      var r := ScoreFor(ps[1..], name, default);
      assert name in Names(ps[1..]) ==> name in Names(ps) by {
        if name in Names(ps[1..]) {
          var j :| 0 <= j < |ps| - 1 && Names(ps[1..])[j] == name;
          assert Names(ps)[j + 1] == name;
        }
      }
      assert name in Names(ps) && ps[0].0 != name ==> name in Names(ps[1..]) by {
        if name in Names(ps) && ps[0].0 != name {
          var j :| 0 <= j < |ps| && Names(ps)[j] == name;
          assert Names(ps[1..])[j - 1] == name;
        }
      }
      r
  }

  /** The focus areas that were evaluated, with their scores. */
  function FocusScores(areas: seq<string>, ps: seq<(string, real)>): (r: seq<(string, real)>)
    ensures forall i :: 0 <= i < |r| ==> r[i].0 in areas && r[i].0 in Names(ps) && r[i] in ps
  {
    if |areas| == 0 then []
    else
      (if areas[0] in Names(ps) then [(areas[0], ScoreFor(ps, areas[0], NeutralScore))] else [])
      + FocusScores(areas[1..], ps)
  }

  /** The three alignment levels, best first. */
  function Level(average: real): nat {
    if average >= 7.0 then 2 else if average >= 5.0 then 1 else 0
  }

  /** The average `_assess_type_alignment` judges: the two key areas of a
      pain-killer or vitamin project (5 for a missing one), otherwise all
      areas. */
  function KeyAverage(ps: seq<(string, real)>, pt: Value): real {
    if pt == VStr("painkiller") then
      (ScoreFor(ps, "business_value", 5.0) + ScoreFor(ps, "technical_feasibility", 5.0)) / 2.0
    else if pt == VStr("vitamin") then
      (ScoreFor(ps, "user_engagement", 5.0) + ScoreFor(ps, "innovation", 5.0)) / 2.0
    else MeanOr(ps)
  }

  function Alignment(ps: seq<(string, real)>, pt: Value): string {
    var level := Level(KeyAverage(ps, pt));
    if pt == VStr("painkiller") then
      (if level == 2 then "프로젝트가 Pain Killer 특성에 잘 부합합니다"
       else if level == 1 then "Pain Killer 특성이 어느 정도 나타나지만 개선이 필요합니다"
       else "Pain Killer 특성이 부족합니다. 핵심 문제 해결 능력을 강화하세요")
    else if pt == VStr("vitamin") then
      (if level == 2 then "프로젝트가 Vitamin 특성에 잘 부합합니다"
       else if level == 1 then "Vitamin 특성이 어느 정도 나타나지만 개선이 필요합니다"
       else "Vitamin 특성이 부족합니다. 사용자 경험과 혁신성을 강화하세요")
    else
      (if level == 2 then "모든 영역에서 균형잡힌 우수한 성과를 보입니다"
       else if level == 1 then "전반적으로 균형잡힌 성과이지만 일부 영역의 개선이 필요합니다"
       else "여러 영역에서 개선이 필요합니다. 약점 영역을 우선적으로 보완하세요")
  }

  datatype TypeAnalysis = TypeAnalysis(
    projectType: Value,
    focusAreas: seq<string>,
    focusScores: seq<(string, real)>,
    focusAverage: real,
    recommendations: seq<string>,
    alignment: string)

  /** `_analyze_by_project_type`; a list or dict project type cannot be
      looked up in the type tables and raises `TypeError`. */
  function AnalyzeByType(rs: Results, pt: Value): (r: Result<TypeAnalysis>)
    requires AllInRange(rs)
    ensures r.Failure? <==> pt.VList? || pt.VMap?
    ensures r.Success? ==> InRange(r.value.focusAverage)
    ensures r.Success? ==> forall i :: 0 <= i < |r.value.focusScores| ==>
      r.value.focusScores[i].0 in r.value.focusAreas && r.value.focusScores[i] in Scored(rs)
  {
    if pt.VList? || pt.VMap? then Failure("TypeError: unhashable type")
    else
      var ps := Scored(rs);
      var areas := FocusAreas(pt, Names(ps));
      var focus := FocusScores(areas, ps);
      MeanOrInRange(focus);
      Success(TypeAnalysis(pt, areas, focus, MeanOr(focus), Recommendations(pt), Alignment(ps, pt)))
  }

  /** A balanced project is judged on the same average the summary
      reports. */
  lemma BalancedAlignmentUsesAverage(rs: Results, pt: Value)
    requires AllInRange(rs)
    requires pt != VStr("painkiller") && pt != VStr("vitamin")
    ensures KeyAverage(Scored(rs), pt) == Summarize(rs).average
  {
  }

  /** Every focus area of a pain-killer project that was evaluated shows up
      in the focus scores with its own score. */
  lemma {:induction false} FocusScoresComplete(areas: seq<string>, ps: seq<(string, real)>, a: string)
    requires a in areas && a in Names(ps)
    ensures exists s :: (a, s) in FocusScores(areas, ps)
  {
    if areas[0] == a {
      assert FocusScores(areas, ps)[0] == (a, ScoreFor(ps, a, NeutralScore));
    } else {
      FocusScoresComplete(areas[1..], ps, a);
      var s :| (a, s) in FocusScores(areas[1..], ps);
      assert (a, s) in FocusScores(areas, ps);
    }
  }

  // ---------------------------------------------------------------------
  // The comprehensive report
  // ---------------------------------------------------------------------

  datatype Detail = Detail(
    name: string,
    score: real,
    grade: Grade,
    reasoning: string,
    suggestions: seq<Value>,
    evaluationMethod: Value,
    executionTime: real,
    projectType: Value)

  function Details(rs: Results): (r: seq<Detail>)
    ensures |r| == |rs|
    ensures forall i :: 0 <= i < |rs| ==> r[i].name == rs[i].0 && r[i].grade == GradeOf(rs[i].1.score)
  {
    seq(|rs|, i requires 0 <= i < |rs| =>
      var rec := rs[i].1;
      Detail(rs[i].0, rec.score, GradeOf(rec.score), rec.reasoning, rec.suggestions,
             rec.evaluationMethod, rec.executionTime, rec.projectType))
  }

  datatype Report = Report(
    overallScore: real,
    projectType: Value,
    date: string,
    chainsEvaluated: int,
    status: string,
    typeAnalysis: TypeAnalysis,
    strengths: seq<Area>,
    weaknesses: seq<Area>,
    summary: Summary,
    priorities: Priorities,
    details: seq<Detail>,
    metadata: Metadata)

  /** `generate_comprehensive_report`; the date is the caller's clock. */
  function ComprehensiveReport(x: Execution, date: string): (r: Result<Report>)
    requires AllInRange(x.results)
    requires x.summary == Summarize(x.results)
    ensures r.Failure? <==> x.metadata.projectType.VList? || x.metadata.projectType.VMap?
    ensures r.Success? ==> InRange(r.value.overallScore)
    ensures r.Success? ==> (r.value.status == Complete <==> x.metadata.errorCount == 0)
    ensures r.Success? ==> |r.value.details| == |x.results|
  {
    match AnalyzeByType(x.results, x.metadata.projectType)
    case Failure(e) => Failure(e)
    case Success(ta) =>
      Success(Report(
        x.summary.average, x.metadata.projectType, date, x.metadata.completedChains,
        Status(x.metadata.errorCount), ta,
        Strengths(x.results), Weaknesses(x.results), x.summary,
        Prioritize(x.results), Details(x.results), x.metadata))
  }
}
