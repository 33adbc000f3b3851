/** The web pipeline's analysis run (`src/web/analysis_manager.py`): the
    four stages (file analysis, classification, the nine scorers, the
    weighted final score) and the progress reports they send to the
    tracker. A run is modelled as the list of tracker calls it makes,
    `Replay` applies that list to a tracker, and the outcome is a
    `Result`. The analysers, the classifier and the scorers are
    parameters; the weight table is the configuration registry. */
module AnalysisManager {
  import opened Wrappers
  import opened Values
  import opened Scores
  import ProgressTracker
  import ConfigManager
  import BaseAnalysis
  import ChainExecutor
  import Classifier
  import NetworkEffect
  import ChainUtils
  import LlmScorer
  import BaseChain

  /** One call the run makes on the progress tracker. */
  datatype Event =
    | Init                                               // initialize_progress
    | Mark(step: string, status: string, progress: real) // update_step
    | Problem(message: string)                           // add_error
    | Finish(progress: real)                             // set_overall_progress

  const FileStage: string := ProgressTracker.DefaultSteps[0]
  const ClassifyStage: string := ProgressTracker.DefaultSteps[1]
  const ChainStage: string := ProgressTracker.DefaultSteps[2]
  const FinalStage: string := ProgressTracker.DefaultSteps[3]

  /** The events that move a run forward: the reset, a step marked
      completed, the overall 100. */
  predicate Milestone(e: Event) {
    e.Init? || e.Finish? || (e.Mark? && e.status == ProgressTracker.Completed)
  }

  /** The events a stage sends while it works: progress inside the stage
      and errors, never a milestone. */
  predicate Quiet(events: seq<Event>) {
    forall i :: 0 <= i < |events| ==> !Milestone(events[i]) && (events[i].Mark? ==> events[i].status == ProgressTracker.InProgress)
  }

  /** A stage's events and its outcome. */
  datatype Stage<T> = Stage(events: seq<Event>, result: T)

  function Percentage(i: nat, total: nat): real
    requires i <= total && total > 0
  {
    (i as real / total as real) * 100.0
  }

  // ---------------------------------------------------------------------
  // Stage 1: file analysis
  // ---------------------------------------------------------------------

  /** An analyser's `invoke` by file kind. */
  type Analyzer = string -> (Dict -> Result<Value>)

  /** The manager hands every analyser an empty URI. */
  const EmptyUri: Dict := [("s3_uri", VStr(""))]

  /** The three kinds the manager knows, with the key their result is
      stored under and the word its fallback message uses. */
  function Known(kind: string): Option<(string, string)> {
    if kind == "video" then Some(("video_analysis", "동영상"))
    else if kind == "document" then Some(("document_analysis", "문서"))
    else if kind == "presentation" then Some(("presentation_analysis", "발표자료"))
    else None
  }

  predicate StoredKey(k: string) {
    k == "video_analysis" || k == "document_analysis" || k == "presentation_analysis"
  }

  /** The record stored when an analyser raises. */
  function FileFallback(word: string, error: string): Value {
    VMap([("content", VStr(word + " 파일 분석 실패: " + error)),
          ("summary", VStr(word + " 분석을 완료할 수 없습니다.")),
          ("keywords", VList([VStr("분석실패")])),
          ("error", VStr(error))])
  }

  /** What is stored for a file of a known kind: the analyser's record,
      or the fallback naming the exception. */
  function Stored(kind: string, analyze: Analyzer): Value
    requires Known(kind).Some?
  {
    match analyze(kind)(EmptyUri)
    case Success(v) => v
    case Failure(e) => FileFallback(Known(kind).value.1, e)
  }

  /** The progress reports of `_analyze_files` for the first `count` of
      `total` files: one before and one after each. */
  function FileReports(count: nat, total: nat): (r: seq<Event>)
    requires count <= total
    ensures |r| == 2 * count && Quiet(r)
    ensures forall i :: 0 <= i < |r| ==> r[i].Mark? && r[i].step == FileStage
    ensures forall i :: 0 <= i < count ==>
      r[2 * i].progress == Percentage(i, total) && r[2 * i + 1].progress == Percentage(i + 1, total)
  {
    if count == 0 then []
    else
      var front := FileReports(count - 1, total);
      var r := front + [Mark(FileStage, ProgressTracker.InProgress, Percentage(count - 1, total)),
                        Mark(FileStage, ProgressTracker.InProgress, Percentage(count, total))];
      assert forall i :: 0 <= i < count - 1 ==> r[2 * i] == front[2 * i] && r[2 * i + 1] == front[2 * i + 1];
      r
  }

  /** The records `_analyze_files` collects from files (kind, path), kinds
      distinct as in the source's dictionary: a known kind's record is
      stored under its key, an unknown kind is passed over. */
  function FileResults(files: seq<(string, string)>, analyze: Analyzer): (r: Dict)
    requires forall i, j :: 0 <= i < j < |files| ==> files[i].0 != files[j].0
    ensures forall k :: !StoredKey(k) ==> Get(r, k).None?
    ensures forall i :: 0 <= i < |files| && Known(files[i].0).Some? ==>
      Get(r, Known(files[i].0).value.0) == Some(Stored(files[i].0, analyze))
  {
    if |files| == 0 then []
    else
      var rest := FileResults(files[1..], analyze);
      assert forall i :: 1 <= i < |files| ==> files[1..][i - 1] == files[i];
      match Known(files[0].0)
      case None => rest
      case Some(slot) =>
        KnownKeys(files[0].0);
        FileResultsStep(files, analyze, rest);
        [(slot.0, Stored(files[0].0, analyze))] + rest
  }

  /** Each known kind has its own stored key. */
  lemma KnownKeys(a: string)
    requires Known(a).Some?
    ensures StoredKey(Known(a).value.0)
    ensures forall b :: b != a && Known(b).Some? ==> Known(b).value.0 != Known(a).value.0
  {
  }

  /** Putting the first file's record in front of the records of the rest
      keeps both of `FileResults`'s promises. */
  lemma FileResultsStep(files: seq<(string, string)>, analyze: Analyzer, rest: Dict)
    requires |files| > 0 && Known(files[0].0).Some?
    requires forall i :: 1 <= i < |files| ==> files[i].0 != files[0].0
    requires forall k :: !StoredKey(k) ==> Get(rest, k).None?
    requires forall i :: 1 <= i < |files| && Known(files[i].0).Some? ==>
      Get(rest, Known(files[i].0).value.0) == Some(Stored(files[i].0, analyze))
    requires StoredKey(Known(files[0].0).value.0)
    requires forall b :: b != files[0].0 && Known(b).Some? ==> Known(b).value.0 != Known(files[0].0).value.0
    ensures var r := [(Known(files[0].0).value.0, Stored(files[0].0, analyze))] + rest;
      && (forall k :: !StoredKey(k) ==> Get(r, k).None?)
      && (forall i :: 0 <= i < |files| && Known(files[i].0).Some? ==>
            Get(r, Known(files[i].0).value.0) == Some(Stored(files[i].0, analyze)))
  {
    var key := Known(files[0].0).value.0;
    var v := Stored(files[0].0, analyze);
    forall k | !StoredKey(k)
      ensures Get([(key, v)] + rest, k).None?
    {
      ConsGet(key, v, rest, k);
    }
    forall i | 0 <= i < |files| && Known(files[i].0).Some?
      ensures Get([(key, v)] + rest, Known(files[i].0).value.0) == Some(Stored(files[i].0, analyze))
    {
      ConsGet(key, v, rest, Known(files[i].0).value.0);
    }
  }

  /** `_analyze_files`: its reports and the records it returns. */
  function AnalyzeFiles(files: seq<(string, string)>, analyze: Analyzer): (r: Stage<Dict>)
    requires forall i, j :: 0 <= i < j < |files| ==> files[i].0 != files[j].0
    ensures Quiet(r.events)
  {
    Stage(FileReports(|files|, |files|), FileResults(files, analyze))
  }

  /** When every known kind's analyser yields the same record, every
      stored analysis is that record. */
  lemma {:induction false} UniformStore(files: seq<(string, string)>, analyze: Analyzer, v: Value, k: string)
    requires forall i, j :: 0 <= i < j < |files| ==> files[i].0 != files[j].0
    requires forall kind :: Known(kind).Some? ==> Stored(kind, analyze) == v
    requires Get(FileResults(files, analyze), k).Some?
    ensures Get(FileResults(files, analyze), k) == Some(v)
    decreases |files|
  {
    var rest := FileResults(files[1..], analyze);
    match Known(files[0].0)
    case None =>
      UniformStore(files[1..], analyze, v, k);
    case Some(slot) =>
      assert ([(slot.0, Stored(files[0].0, analyze))] + rest)[1..] == rest;
      if k != slot.0 {
        UniformStore(files[1..], analyze, v, k);
      }
  }

  /** The analysers as the manager has them: each inherits the base entry
      point and supplies only its `process`. */
  function Inherited(process: string -> BaseAnalysis.Process): Analyzer {
    kind => (d => BaseAnalysis.Invoke(d, process(kind)))
  }

  /** Given an empty URI, the inherited entry point skips: every stored
      file analysis is the skipped record, whatever the analysers' own
      `process` does. */
  lemma FilesAreSkipped(files: seq<(string, string)>, process: string -> BaseAnalysis.Process, k: string)
    requires forall i, j :: 0 <= i < j < |files| ==> files[i].0 != files[j].0
    requires Get(AnalyzeFiles(files, Inherited(process)).result, k).Some?
    ensures Get(AnalyzeFiles(files, Inherited(process)).result, k) == Some(BaseAnalysis.EmptyResult())
  {
    assert BaseAnalysis.NoUri(EmptyUri);
    forall kind | Known(kind).Some?
      ensures Stored(kind, Inherited(process)) == BaseAnalysis.EmptyResult()
    {
      BaseAnalysis.SkipIgnoresProcess(EmptyUri, process(kind), BaseAnalysis.BaseProcess);
    }
    UniformStore(files, Inherited(process), BaseAnalysis.EmptyResult(), k);
  }

  // ---------------------------------------------------------------------
  // Stage 2: classification
  // ---------------------------------------------------------------------

  /** The classifier's `classify`; `Success(None)` is its legacy-mode
      answer after a failure. */
  type Classify = Dict -> Result<Option<Classifier.Classification>>

  /** The classification as the dictionary (or `None`) the manager holds. */
  function AsValue(c: Option<Classifier.Classification>): (r: Value)
    ensures c.None? <==> r.VNone?
    ensures c.Some? ==> r.VMap? && Get(r.entries, "project_type") == Some(VStr(c.value.projectType))
  {
    match c
    case None => VNone
    case Some(x) =>
      Classifier.AsDictLookup(x, 0);
      VMap(Classifier.AsDict(x))
  }

  const ClassifyFailure: string := "프로젝트 분류 실패: "

  /** `_classify_project`: a report at 50 and at 100; a failure is logged
      and raised again as `RuntimeError`, with no default type. */
  function ClassifyProject(analysis: Dict, classify: Classify): (r: Stage<Result<Value>>)
    ensures Quiet(r.events) && |r.events| == 2
    ensures r.events[0] == Mark(ClassifyStage, ProgressTracker.InProgress, 50.0)
    ensures r.result.Failure? <==> classify(analysis).Failure?
    ensures r.result.Failure? ==>
      (r.result.error == ClassifyFailure + classify(analysis).error
       && r.events[1] == Problem("프로젝트 분류 중 오류: " + classify(analysis).error))
    ensures r.result.Success? ==>
      (r.result.value == AsValue(classify(analysis).value)
       && r.events[1] == Mark(ClassifyStage, ProgressTracker.InProgress, 100.0))
  {
    var start := Mark(ClassifyStage, ProgressTracker.InProgress, 50.0);
    match classify(analysis)
    case Failure(e) => Stage([start, Problem("프로젝트 분류 중 오류: " + e)], Failure(ClassifyFailure + e))
    case Success(c) => Stage([start, Mark(ClassifyStage, ProgressTracker.InProgress, 100.0)], Success(AsValue(c)))
  }

  // ---------------------------------------------------------------------
  // Stage 3: the scorers
  // ---------------------------------------------------------------------

  /** A scorer's `invoke` by name; `Failure` is the exception it raises. */
  type Invoke = string -> (Dict -> Result<Value>)

  /** The scorers' input as written: the whole classification record
      under "project_type", then the analyses. */
  function ChainInput(classification: Value, analysis: Dict): (r: Dict)
    ensures Get(r, "project_type") == Some(classification)
  {
    [("project_type", classification)] + analysis
  }

  /** The record stored for a scorer that raises: score 0, unlike the
      executor's 5. */
  function ErrorRecord(error: string): (r: Value)
    ensures r.VMap? && Get(r.entries, "score") == Some(VNum(0.0)) && !HasKey(r.entries, "total_score")
  {
    VMap([("score", VNum(0.0)),
          ("reasoning", VStr(ChainExecutor.ErrorLead + error)),
          ("suggestions", VList([VStr(ChainExecutor.AskAdmin)])),
          ("execution_time", VNum(0.0)),
          ("error", VStr(error))])
  }

  /** What `_run_evaluation_chains` stores for one scorer. */
  function Evaluated(input: Dict, invoke: Invoke, name: string): Value {
    match invoke(name)(input)
    case Success(v) => v
    case Failure(e) => ErrorRecord(e)
  }

  /** The scorers' results, by name in order; every scorer runs whatever
      the others did. */
  function ChainResults(names: seq<string>, input: Dict, invoke: Invoke): (r: Dict)
    requires forall i, j :: 0 <= i < j < |names| ==> names[i] != names[j]
    ensures Keys(r) == names
    ensures forall i :: 0 <= i < |names| ==> Get(r, names[i]) == Some(Evaluated(input, invoke, names[i]))
  {
    if |names| == 0 then []
    else
      var rest := ChainResults(names[1..], input, invoke);
      assert forall i :: 1 <= i < |names| ==> names[1..][i - 1] == names[i];
      [(names[0], Evaluated(input, invoke, names[0]))] + rest
  }

  /** The reports for the scorer at position `i` of `total`: one before
      it runs, then either one after or the error it raised. */
  function ChainReports(i: nat, total: nat, name: string, input: Dict, invoke: Invoke): (r: seq<Event>)
    requires i < total
    ensures |r| == 2 && Quiet(r) && !r[0].Problem?
    ensures r[1].Problem? <==> invoke(name)(input).Failure?
  {
    var before := Mark(ChainStage, ProgressTracker.InProgress, Percentage(i, total));
    match invoke(name)(input)
    case Success(_) => [before, Mark(ChainStage, ProgressTracker.InProgress, Percentage(i + 1, total))]
    case Failure(e) => [before, Problem(name + " 평가 중 오류: " + e)]
  }

  /** The reports of the scorers from position `start` on. */
  function ChainEvents(names: seq<string>, start: nat, total: nat, input: Dict, invoke: Invoke): (r: seq<Event>)
    requires start + |names| <= total
    ensures |r| == 2 * |names| && Quiet(r)
  {
    if |names| == 0 then []
    else ChainReports(start, total, names[0], input, invoke) + ChainEvents(names[1..], start + 1, total, input, invoke)
  }

  /** The number of error reports among some events. */
  function Problems(events: seq<Event>): nat {
    if |events| == 0 then 0
    else (if events[0].Problem? then 1 else 0) + Problems(events[1..])
  }

  /** The number of scorers that raise. */
  function Raising(names: seq<string>, input: Dict, invoke: Invoke): nat {
    if |names| == 0 then 0
    else (if invoke(names[0])(input).Failure? then 1 else 0) + Raising(names[1..], input, invoke)
  }

  /** One error report per scorer that raises, and none otherwise. */
  lemma {:induction false} OneProblemPerFailure(names: seq<string>, start: nat, total: nat, input: Dict, invoke: Invoke)
    requires start + |names| <= total
    ensures Problems(ChainEvents(names, start, total, input, invoke)) == Raising(names, input, invoke)
    decreases |names|
  {
    if |names| > 0 {
      var step := ChainReports(start, total, names[0], input, invoke);
      var rest := ChainEvents(names[1..], start + 1, total, input, invoke);
      OneProblemPerFailure(names[1..], start + 1, total, input, invoke);
      assert (step + rest)[1..] == [step[1]] + rest;
      assert ([step[1]] + rest)[1..] == rest;
    }
  }

  // ---------------------------------------------------------------------
  // Stage 4: the final score
  // ---------------------------------------------------------------------

  const ConversionError: string := "ValueError: could not convert to float"

  /** The score the manager reads from one scorer's result: `total_score`
      for business value when present, else `score` (0 when missing); a
      result that is not a mapping goes through `float`, 0 when falsy. */
  function ExtractScore(category: string, result: Value): (r: Result<Value>)
    ensures result.VMap? && category == "business_value" && HasKey(result.entries, "total_score") ==>
      r == Success(Get(result.entries, "total_score").value)
    ensures result.VMap? && (category != "business_value" || !HasKey(result.entries, "total_score")) ==>
      r == Success(GetOr(result.entries, "score", VNum(0.0)))
    ensures !result.VMap? && !Truthy(result) ==> r == Success(VNum(0.0))
    ensures !result.VMap? && Truthy(result) ==>
      (r.Success? <==> ToFloat(result).Some?) && (r.Success? ==> r.value == VNum(ToFloat(result).value))
  {
    if result.VMap? then
      if category == "business_value" && HasKey(result.entries, "total_score") then
        Success(Get(result.entries, "total_score").value)
      else Success(GetOr(result.entries, "score", VNum(0.0)))
    else if !Truthy(result) then Success(VNum(0.0))
    else match ToFloat(result)
      case None => Failure(ConversionError)
      case Some(x) => Success(VNum(x))
  }

  /** The scores by category, in the order of the results; a result that
      cannot be read as a number stops the stage. */
  function ExtractScores(evaluation: Dict): (r: Result<Dict>)
    ensures r.Success? <==> forall i :: 0 <= i < |evaluation| ==> ExtractScore(evaluation[i].0, evaluation[i].1).Success?
    ensures r.Success? ==> |r.value| == |evaluation| && forall i :: 0 <= i < |evaluation| ==>
      r.value[i] == (evaluation[i].0, ExtractScore(evaluation[i].0, evaluation[i].1).value)
  {
    if forall i :: 0 <= i < |evaluation| ==> ExtractScore(evaluation[i].0, evaluation[i].1).Success? then
      Success(seq(|evaluation|, i requires 0 <= i < |evaluation| =>
        (evaluation[i].0, ExtractScore(evaluation[i].0, evaluation[i].1).value)))
    else Failure(ConversionError)
  }

  /** The weight the table gives a category, 0 when it has none. */
  function WeightOf(weights: Dict, category: string): Value {
    GetOr(weights, category, VNum(0.0))
  }

  /** A score times a weight, both numbers. */
  function Product(score: Value, weight: Value): real
    requires AsNumber(score).Some? && AsNumber(weight).Some?
  {
    AsNumber(score).value * AsNumber(weight).value
  }

  /** Each category's weighted score, the product of its score and its
      weight; a product of anything but numbers fails. */
  function WeightedScores(scores: Dict, weights: Dict): (r: Result<seq<(string, real)>>)
    ensures r.Success? <==> forall i :: 0 <= i < |scores| ==>
      AsNumber(scores[i].1).Some? && AsNumber(WeightOf(weights, scores[i].0)).Some?
    ensures r.Success? ==> |r.value| == |scores| && forall i :: 0 <= i < |scores| ==>
      r.value[i] == (scores[i].0, Product(scores[i].1, WeightOf(weights, scores[i].0)))
  {
    if forall i :: 0 <= i < |scores| ==> AsNumber(scores[i].1).Some? && AsNumber(WeightOf(weights, scores[i].0)).Some? then
      Success(seq(|scores|, i requires 0 <= i < |scores| => (scores[i].0, Product(scores[i].1, WeightOf(weights, scores[i].0)))))
    else Failure("TypeError: unsupported operand type(s) for *")
  }

  function SumOf(ws: seq<(string, real)>): real {
    if |ws| == 0 then 0.0 else ws[0].1 + SumOf(ws[1..])
  }

  /** `_calculate_final_scores`' record (its timestamp left out). */
  datatype Final = Final(
    sessionId: string,
    classification: Value,
    evaluation: Dict,
    scores: Dict,
    weights: Dict,
    weighted: seq<(string, real)>,
    finalScore: real,
    projectType: Value,
    weightSummary: string)

  /** The classification's `project_type`; `None`, a non-mapping or a
      missing key raise. */
  function TypeOf(classification: Value): (r: Result<Value>)
    ensures r.Success? <==> classification.VMap? && HasKey(classification.entries, "project_type")
    ensures r.Success? ==> Get(classification.entries, "project_type") == Some(r.value)
  {
    if classification.VMap? && HasKey(classification.entries, "project_type") then
      Success(Get(classification.entries, "project_type").value)
    else Failure("TypeError: 'project_type'")
  }

  /** `config_manager.get_weights(project_type)`, which must be a mapping
      for the `.get` that follows. */
  function WeightsFor(reg: ConfigManager.Registry, projectType: Value): (r: Result<Dict>)
    ensures r.Success? <==> ConfigManager.GetWeights(reg, Show(projectType)).VMap?
    ensures r.Success? ==> VMap(r.value) == ConfigManager.GetWeights(reg, Show(projectType))
  {
    var w := ConfigManager.GetWeights(reg, Show(projectType));
    if w.VMap? then Success(w.entries) else Failure("AttributeError: 'get'")
  }

  /** The computation of `_calculate_final_scores`, without its reports:
      scores, then the type, then the weights, then the weighted sum. */
  function ComputeFinal(id: string, evaluation: Dict, classification: Value, reg: ConfigManager.Registry): (r: Result<Final>)
    ensures r.Success? <==>
      (&& ExtractScores(evaluation).Success?
       && TypeOf(classification).Success?
       && WeightsFor(reg, TypeOf(classification).value).Success?
       && WeightedScores(ExtractScores(evaluation).value, WeightsFor(reg, TypeOf(classification).value).value).Success?)
    ensures r.Success? ==>
      (&& r.value.sessionId == id && r.value.classification == classification && r.value.evaluation == evaluation
       && Success(r.value.scores) == ExtractScores(evaluation)
       && Success(r.value.projectType) == TypeOf(classification)
       && Success(r.value.weights) == WeightsFor(reg, r.value.projectType)
       && Success(r.value.weighted) == WeightedScores(r.value.scores, r.value.weights)
       && r.value.finalScore == SumOf(r.value.weighted))
  {
    match ExtractScores(evaluation)
    case Failure(e) => Failure(e)
    case Success(scores) =>
      match TypeOf(classification)
      case Failure(e) => Failure(e)
      case Success(pt) =>
        match WeightsFor(reg, pt)
        case Failure(e) => Failure(e)
        case Success(weights) =>
          match WeightedScores(scores, weights)
          case Failure(e) => Failure(e)
          case Success(weighted) =>
            Success(Final(id, classification, evaluation, scores, weights, weighted, SumOf(weighted), pt,
                          Show(pt) + " 유형 가중치 적용됨"))
  }

  const FinalFailure: string := "최종 점수 계산 중 오류: "

  /** The final stage with its reports at 25, 50, 75 and 100: a score
      that cannot be read fails after the first, anything later after the
      second; a failure is logged and raised again. */
  function FinalScores(id: string, evaluation: Dict, classification: Value, reg: ConfigManager.Registry): (r: Stage<Result<Final>>)
    ensures Quiet(r.events)
    ensures r.result == ComputeFinal(id, evaluation, classification, reg)
    ensures r.result.Failure? ==> |r.events| > 0 && r.events[|r.events| - 1] == Problem(FinalFailure + r.result.error)
    ensures r.result.Success? ==> |r.events| == 4 && r.events[3].Mark? && r.events[3].progress == 100.0
  {
    var result := ComputeFinal(id, evaluation, classification, reg);
    var m25 := Mark(FinalStage, ProgressTracker.InProgress, 25.0);
    var m50 := Mark(FinalStage, ProgressTracker.InProgress, 50.0);
    if result.Success? then
      Stage([m25, m50, Mark(FinalStage, ProgressTracker.InProgress, 75.0),
             Mark(FinalStage, ProgressTracker.InProgress, 100.0)], result)
    else if ExtractScores(evaluation).Failure? then
      Stage([m25, Problem(FinalFailure + result.error)], result)
    else
      Stage([m25, m50, Problem(FinalFailure + result.error)], result)
  }

  /** A scorer that raised weighs in with 0 here, whereas the executor
      substitutes the neutral 5. */
  lemma FallbackScoresDiffer(category: string, error: string, input: Dict, time: real)
    ensures ExtractScore(category, ErrorRecord(error)) == Success(VNum(0.0))
    ensures ChainExecutor.Fallback(input, error, time).score == NeutralScore && NeutralScore != 0.0
  {
  }

  /** The business-value scorer is read through its `total_score` when
      it has one, any other scorer through `score` even if it also has a
      `total_score`. */
  lemma TotalScorePreferred(result: Dict, total: Value, score: Value, other: string)
    requires Get(result, "total_score") == Some(total) && Get(result, "score") == Some(score)
    requires other != "business_value"
    ensures ExtractScore("business_value", VMap(result)) == Success(total)
    ensures ExtractScore(other, VMap(result)) == Success(score)
  {
  }

  /** The weights the table gives the scored categories. */
  function WeightList(scores: Dict, weights: Dict): (r: seq<real>)
    requires forall i :: 0 <= i < |scores| ==> AsNumber(WeightOf(weights, scores[i].0)).Some?
    ensures |r| == |scores|
  {
    if |scores| == 0 then []
    else [AsNumber(WeightOf(weights, scores[0].0)).value] + WeightList(scores[1..], weights)
  }

  lemma {:induction false} SumOfBounded(ws: seq<(string, real)>, w: seq<real>)
    requires |w| == |ws|
    requires forall i :: 0 <= i < |ws| ==> 0.0 <= ws[i].1 <= 10.0 * w[i]
    ensures 0.0 <= SumOf(ws) <= 10.0 * Sum(w)
    decreases |ws|
  {
    if |ws| > 0 {
      SumOfBounded(ws[1..], w[1..]);
      SumAppend([w[0]], w[1..]);
      assert [w[0]] + w[1..] == w;
      assert Sum([w[0]]) == w[0] by {
        assert [w[0]][..0] == [];
      }
    }
  }

  lemma {:induction false} WeightListAt(scores: Dict, weights: Dict, i: nat)
    requires forall j :: 0 <= j < |scores| ==> AsNumber(WeightOf(weights, scores[j].0)).Some?
    requires i < |scores|
    ensures WeightList(scores, weights)[i] == AsNumber(WeightOf(weights, scores[i].0)).value
    decreases i
  {
    if i > 0 {
      WeightListAt(scores[1..], weights, i - 1);
    }
  }

  lemma ScaledScore(score: Value, weight: Value)
    requires AsNumber(score).Some? && AsNumber(weight).Some?
    requires InRange(AsNumber(score).value) && AsNumber(weight).value >= 0.0
    ensures 0.0 <= Product(score, weight) <= 10.0 * AsNumber(weight).value
  {
    ProductBetween(AsNumber(score).value, AsNumber(weight).value);
  }

  lemma ProductBetween(s: real, w: real)
    requires 0.0 <= s <= 10.0 && w >= 0.0
    ensures 0.0 <= s * w <= 10.0 * w
  {
    assert (10.0 - s) * w >= 0.0;
  }

  lemma WeightedAt(scores: Dict, weights: Dict, i: nat)
    requires WeightedScores(scores, weights).Success?
    requires i < |scores|
    requires InRange(AsNumber(scores[i].1).value) && AsNumber(WeightOf(weights, scores[i].0)).value >= 0.0
    ensures 0.0 <= WeightedScores(scores, weights).value[i].1 <= 10.0 * WeightList(scores, weights)[i]
  {
    WeightListAt(scores, weights, i);
    ScaledScore(scores[i].1, WeightOf(weights, scores[i].0));
  }

  /** With scores in [0, 10] and non-negative weights, the weighted sum
      lies between 0 and ten times the weights used. */
  lemma WeightedSumBounded(scores: Dict, weights: Dict)
    requires WeightedScores(scores, weights).Success?
    requires forall i :: 0 <= i < |scores| ==>
      InRange(AsNumber(scores[i].1).value) && AsNumber(WeightOf(weights, scores[i].0)).value >= 0.0
    ensures 0.0 <= SumOf(WeightedScores(scores, weights).value) <= 10.0 * Sum(WeightList(scores, weights))
  {
    var ws := WeightedScores(scores, weights).value;
    var w := WeightList(scores, weights);
    forall i | 0 <= i < |ws|
      ensures 0.0 <= ws[i].1 <= 10.0 * w[i]
    {
      WeightedAt(scores, weights, i);
    }
    SumOfBounded(ws, w);
  }

  // ---------------------------------------------------------------------
  // The run
  // ---------------------------------------------------------------------

  const RunFailure: string := "분석 중 오류 발생: "

  function Begin(stage: string): Event { Mark(stage, ProgressTracker.InProgress, 0.0) }
  function Done(stage: string): Event { Mark(stage, ProgressTracker.Completed, 100.0) }

  /** The calls up to the classifier's answer. */
  function Opening(fileEvents: seq<Event>, classEvents: seq<Event>): seq<Event> {
    [Init, Begin(FileStage)] + fileEvents + [Done(FileStage), Begin(ClassifyStage)] + classEvents
  }

  /** The calls from the classification's completion to the end of the
      final stage's own reports. */
  function Closing(chainEvents: seq<Event>, finalEvents: seq<Event>): seq<Event> {
    [Done(ClassifyStage), Begin(ChainStage)] + chainEvents + [Done(ChainStage), Begin(FinalStage)] + finalEvents
  }

  /** The nine scorers' results for the run's input. */
  function ChainResultsFor(classification: Value, analysis: Dict, invoke: Invoke): (r: Dict)
    ensures Keys(r) == ChainExecutor.Registry
  {
    ChainExecutor.RegistryDistinct();
    ChainResults(ChainExecutor.Registry, ChainInput(classification, analysis), invoke)
  }

  /** The nine scorers' reports for the run's input. */
  function ChainEventsFor(classification: Value, analysis: Dict, invoke: Invoke): (r: seq<Event>)
    ensures Quiet(r)
  {
    ChainEvents(ChainExecutor.Registry, 0, |ChainExecutor.Registry|, ChainInput(classification, analysis), invoke)
  }

  /** The run from the classification on: the scorers, the final stage,
      and the completion or the error report that ends the run. */
  function Later(id: string, classification: Value, analysis: Dict, invoke: Invoke, reg: ConfigManager.Registry): (r: Stage<Result<Final>>)
    ensures r.result == ComputeFinal(id, ChainResultsFor(classification, analysis, invoke), classification, reg)
    ensures classification.VNone? ==> r.result.Failure?
    ensures |r.events| > 0
    ensures r.result.Success? ==> r.events[|r.events| - 1] == Finish(100.0)
    ensures r.result.Failure? ==> r.events[|r.events| - 1] == Problem(RunFailure + r.result.error)
  {
    Ending(ChainEventsFor(classification, analysis, invoke),
           FinalScores(id, ChainResultsFor(classification, analysis, invoke), classification, reg))
  }

  /** The scorers' reports and the final stage, closed by the completion
      or by the error report. */
  function Ending(chainEvents: seq<Event>, finalStage: Stage<Result<Final>>): (r: Stage<Result<Final>>)
    ensures r.result == finalStage.result && |r.events| > 0
    ensures r.result.Success? ==> r.events[|r.events| - 1] == Finish(100.0)
    ensures r.result.Failure? ==> r.events[|r.events| - 1] == Problem(RunFailure + r.result.error)
  {
    var events := Closing(chainEvents, finalStage.events);
    match finalStage.result
    case Failure(e) => Stage(events + [Problem(RunFailure + e)], Failure(e))
    case Success(f) => Stage(events + [Done(FinalStage), Finish(100.0)], Success(f))
  }

  /** `_run_analysis`: the four stages in order, each opened at 0 and
      closed at 100, then the overall 100; a stage that raises is logged
      once more and ends the run. The scorers run in the executor's
      registry order on the input built from the classification. */
  function RunAnalysis(id: string, files: seq<(string, string)>, analyze: Analyzer, classify: Classify,
                       invoke: Invoke, reg: ConfigManager.Registry): (r: Stage<Result<Final>>)
    requires forall i, j :: 0 <= i < j < |files| ==> files[i].0 != files[j].0
    ensures |r.events| > 1 && r.events[0] == Init
    ensures r.result.Success? ==> r.result.value.sessionId == id
    ensures r.result.Failure? ==> r.events[|r.events| - 1] == Problem(RunFailure + r.result.error)
    ensures r.result.Success? ==> r.events[|r.events| - 1] == Finish(100.0)
  {
    var fileStage := AnalyzeFiles(files, analyze);
    var classStage := ClassifyProject(fileStage.result, classify);
    var opening := Opening(fileStage.events, classStage.events);
    match classStage.result
    case Failure(e) => Stage(opening + [Problem(RunFailure + e)], Failure(e))
    case Success(classification) =>
      var later := Later(id, classification, fileStage.result, invoke, reg);
      Stage(opening + later.events, later.result)
  }

  /** The milestones of a run's three parts: the reset and the files'
      completion; the classification's and the scorers' completions; the
      final stage's completion and the overall 100. */
  const Opened: seq<Event> := [Init, Done(FileStage)]
  const Scored: seq<Event> := [Done(ClassifyStage), Done(ChainStage)]
  const Closed: seq<Event> := [Done(FinalStage), Finish(100.0)]

  /** The milestones among some events, in order. */
  function Milestones(events: seq<Event>): seq<Event> {
    if |events| == 0 then []
    else (if Milestone(events[0]) then [events[0]] else []) + Milestones(events[1..])
  }

  lemma {:induction false} MilestonesAppend(a: seq<Event>, b: seq<Event>)
    ensures Milestones(a + b) == Milestones(a) + Milestones(b)
    decreases |a|
  {
    if |a| > 0 {
      assert (a + b)[1..] == a[1..] + b;
      MilestonesAppend(a[1..], b);
    } else {
      assert a + b == b;
    }
  }

  lemma {:induction false} QuietHasNoMilestones(events: seq<Event>)
    requires Quiet(events)
    ensures Milestones(events) == []
    decreases |events|
  {
    if |events| > 0 {
      assert Quiet(events[1..]) by {
        forall i | 0 <= i < |events| - 1
          ensures !Milestone(events[1..][i])
        {
          assert events[1..][i] == events[i + 1];
        }
      }
      QuietHasNoMilestones(events[1..]);
    }
  }

  lemma OpeningMilestones(fileEvents: seq<Event>, classEvents: seq<Event>)
    requires Quiet(fileEvents) && Quiet(classEvents)
    ensures Milestones(Opening(fileEvents, classEvents)) == Opened
  {
    QuietHasNoMilestones(fileEvents);
    QuietHasNoMilestones(classEvents);
    var head := [Init, Begin(FileStage)];
    var mid := [Done(FileStage), Begin(ClassifyStage)];
    MilestonesAppend(head, fileEvents);
    MilestonesAppend(head + fileEvents, mid);
    MilestonesAppend(head + fileEvents + mid, classEvents);
    assert Milestones(head) == [Init] by {
      TailMilestones(Init, Begin(FileStage));
      assert ProgressTracker.InProgress != ProgressTracker.Completed;
      assert Milestone(Init) && !Milestone(Begin(FileStage));
    }
    assert Milestones(mid) == [Done(FileStage)] by {
      TailMilestones(Done(FileStage), Begin(ClassifyStage));
      assert ProgressTracker.InProgress != ProgressTracker.Completed;
      assert Milestone(Done(FileStage)) && !Milestone(Begin(ClassifyStage));
    }
  }

  lemma ClosingMilestones(chainEvents: seq<Event>, finalEvents: seq<Event>)
    requires Quiet(chainEvents) && Quiet(finalEvents)
    ensures Milestones(Closing(chainEvents, finalEvents)) == Scored
  {
    QuietHasNoMilestones(chainEvents);
    QuietHasNoMilestones(finalEvents);
    var head := [Done(ClassifyStage), Begin(ChainStage)];
    var mid := [Done(ChainStage), Begin(FinalStage)];
    MilestonesAppend(head, chainEvents);
    MilestonesAppend(head + chainEvents, mid);
    MilestonesAppend(head + chainEvents + mid, finalEvents);
    assert Milestones(head) == [Done(ClassifyStage)] by {
      TailMilestones(Done(ClassifyStage), Begin(ChainStage));
      assert ProgressTracker.InProgress != ProgressTracker.Completed;
      assert Milestone(Done(ClassifyStage)) && !Milestone(Begin(ChainStage));
    }
    assert Milestones(mid) == [Done(ChainStage)] by {
      TailMilestones(Done(ChainStage), Begin(FinalStage));
      assert ProgressTracker.InProgress != ProgressTracker.Completed;
      assert Milestone(Done(ChainStage)) && !Milestone(Begin(FinalStage));
    }
  }

  lemma TailMilestones(e: Event, f: Event)
    ensures Milestones([e]) == (if Milestone(e) then [e] else [])
    ensures Milestones([e, f]) == Milestones([e]) + Milestones([f])
  {
    assert [e][1..] == [];
    assert [e, f][1..] == [f];
    assert [f][1..] == [];
  }

  lemma FailedEnding(chainEvents: seq<Event>, finalEvents: seq<Event>, message: string)
    requires Quiet(chainEvents) && Quiet(finalEvents)
    ensures Milestones(Closing(chainEvents, finalEvents) + [Problem(message)]) == Scored
  {
    ClosingMilestones(chainEvents, finalEvents);
    MilestonesAppend(Closing(chainEvents, finalEvents), [Problem(message)]);
    TailMilestones(Problem(message), Problem(message));
  }

  lemma CompletedEnding(chainEvents: seq<Event>, finalEvents: seq<Event>)
    requires Quiet(chainEvents) && Quiet(finalEvents)
    ensures Milestones(Closing(chainEvents, finalEvents) + [Done(FinalStage), Finish(100.0)]) ==
      Scored + Closed
  {
    ClosingMilestones(chainEvents, finalEvents);
    MilestonesAppend(Closing(chainEvents, finalEvents), [Done(FinalStage), Finish(100.0)]);
    TailMilestones(Done(FinalStage), Finish(100.0));
    TailMilestones(Finish(100.0), Finish(100.0));
  }

  /** After the classification: its completion and the scorers', then
      the final stage's and the overall 100 exactly on success. */
  lemma LaterMilestones(id: string, classification: Value, analysis: Dict, invoke: Invoke, reg: ConfigManager.Registry)
    ensures var r := Later(id, classification, analysis, invoke, reg);
      Milestones(r.events) ==
        Scored + (if r.result.Success? then Closed else [])
  {
    EndingMilestones(ChainEventsFor(classification, analysis, invoke),
                     FinalScores(id, ChainResultsFor(classification, analysis, invoke), classification, reg));
  }

  lemma EndingMilestones(chainEvents: seq<Event>, finalStage: Stage<Result<Final>>)
    requires Quiet(chainEvents) && Quiet(finalStage.events)
    ensures var r := Ending(chainEvents, finalStage);
      Milestones(r.events) == Scored + (if r.result.Success? then Closed else [])
  {
    match finalStage.result
    case Failure(e) =>
      FailedEnding(chainEvents, finalStage.events, RunFailure + e);
    case Success(f) =>
      CompletedEnding(chainEvents, finalStage.events);
  }

  lemma OpeningThen(fileEvents: seq<Event>, classEvents: seq<Event>, rest: seq<Event>)
    requires Quiet(fileEvents) && Quiet(classEvents)
    ensures Milestones(Opening(fileEvents, classEvents) + rest) == Opened + Milestones(rest)
  {
    OpeningMilestones(fileEvents, classEvents);
    MilestonesAppend(Opening(fileEvents, classEvents), rest);
  }

  lemma ProblemHasNoMilestone(message: string)
    ensures Milestones([Problem(message)]) == []
  {
    TailMilestones(Problem(message), Problem(message));
  }

  /** A classifier that raises ends the run after the files: the reset
      and the files' completion are its only milestones. */
  lemma RunWhenClassifierFails(id: string, files: seq<(string, string)>, analyze: Analyzer, classify: Classify,
                               invoke: Invoke, reg: ConfigManager.Registry)
    requires forall i, j :: 0 <= i < j < |files| ==> files[i].0 != files[j].0
    requires classify(AnalyzeFiles(files, analyze).result).Failure?
    ensures var r := RunAnalysis(id, files, analyze, classify, invoke, reg);
      r.result.Failure? && Milestones(r.events) == Opened
  {
    var fileStage := AnalyzeFiles(files, analyze);
    var classStage := ClassifyProject(fileStage.result, classify);
    var e := classStage.result.error;
    OpeningThen(fileStage.events, classStage.events, [Problem(RunFailure + e)]);
    ProblemHasNoMilestone(RunFailure + e);
  }

  /** A classifier that answers takes the run through the scorers: the
      milestones are the reset and the completions of the files, the
      classification and the scorers, then the final stage's and the
      overall 100 exactly when the run succeeds. */
  lemma RunWhenClassifierAnswers(id: string, files: seq<(string, string)>, analyze: Analyzer, classify: Classify,
                                 invoke: Invoke, reg: ConfigManager.Registry)
    requires forall i, j :: 0 <= i < j < |files| ==> files[i].0 != files[j].0
    requires classify(AnalyzeFiles(files, analyze).result).Success?
    ensures var r := RunAnalysis(id, files, analyze, classify, invoke, reg);
      Milestones(r.events) ==
        Opened + (Scored + (if r.result.Success? then Closed else []))
    ensures classify(AnalyzeFiles(files, analyze).result).value.None? ==>
      RunAnalysis(id, files, analyze, classify, invoke, reg).result.Failure?
  {
    var fileStage := AnalyzeFiles(files, analyze);
    var classStage := ClassifyProject(fileStage.result, classify);
    var classification := classStage.result.value;
    var later := Later(id, classification, fileStage.result, invoke, reg);
    assert RunAnalysis(id, files, analyze, classify, invoke, reg) ==
      Stage(Opening(fileStage.events, classStage.events) + later.events, later.result);
    LaterMilestones(id, classification, fileStage.result, invoke, reg);
    OpeningThen(fileStage.events, classStage.events, later.events);
  }

  // ---------------------------------------------------------------------
  // The run as the tracker sees it
  // ---------------------------------------------------------------------

  /** The tracker after the run's calls, one after the other; `stamp` is
      the clock text of error messages. */
  function Replay(t: ProgressTracker.Sessions, id: string, events: seq<Event>, stamp: string, now: real): (r: ProgressTracker.Sessions)
    requires ProgressTracker.ValidTracker(t)
    ensures ProgressTracker.ValidTracker(r)
    ensures |events| > 0 && events[0].Init? ==> id in r
    decreases |events|
  {
    if |events| == 0 then t
    else
      var before := Replay(t, id, events[..|events| - 1], stamp, now);
      assert |events| > 1 ==> events[..|events| - 1][0] == events[0];
      match events[|events| - 1]
      case Init => ProgressTracker.Initialize(before, id, now)
      case Mark(step, status, p) => ProgressTracker.UpdateStep(before, id, step, status, p, now)
      case Problem(m) => ProgressTracker.AddError(before, id, m, stamp, now)
      case Finish(p) => ProgressTracker.SetOverall(before, id, p, now)
  }

  /** After a run that began with the reset, the last call decides the
      session's state: the overall 100 leaves it completed, an error
      report leaves it in error with that message last. */
  lemma ReplayEnds(t: ProgressTracker.Sessions, id: string, events: seq<Event>, stamp: string, now: real)
    requires ProgressTracker.ValidTracker(t)
    requires |events| > 1 && events[0] == Init
    ensures var s := Replay(t, id, events, stamp, now)[id];
      events[|events| - 1] == Finish(100.0) ==>
        s.status == ProgressTracker.Completed && s.overall == 100.0 && s.endTime == Some(now)
    ensures var s := Replay(t, id, events, stamp, now)[id];
      events[|events| - 1].Problem? ==>
        s.status == ProgressTracker.Error && |s.errors| > 0 &&
        s.errors[|s.errors| - 1] == "[" + stamp + "] " + events[|events| - 1].message
  {
    var before := Replay(t, id, events[..|events| - 1], stamp, now);
    assert events[..|events| - 1][0] == Init;
    assert id in before;
  }

  /** A successful run leaves its session completed at 100 percent; a
      failed one leaves it in error with the run's message last. */
  lemma RunOutcomeInTracker(t: ProgressTracker.Sessions, id: string, files: seq<(string, string)>, analyze: Analyzer,
                            classify: Classify, invoke: Invoke, reg: ConfigManager.Registry, stamp: string, now: real)
    requires ProgressTracker.ValidTracker(t)
    requires forall i, j :: 0 <= i < j < |files| ==> files[i].0 != files[j].0
    ensures var r := RunAnalysis(id, files, analyze, classify, invoke, reg);
      var s := Replay(t, id, r.events, stamp, now)[id];
      (r.result.Success? ==> s.status == ProgressTracker.Completed && s.overall == 100.0) &&
      (r.result.Failure? ==>
         s.status == ProgressTracker.Error && |s.errors| > 0 &&
         s.errors[|s.errors| - 1] == "[" + stamp + "] " + RunFailure + r.result.error)
  {
    var r := RunAnalysis(id, files, analyze, classify, invoke, reg);
    StageOutcome(t, id, r, stamp, now);
  }

  /** The tracker's state after a run's events, from how the run ended. */
  lemma StageOutcome(t: ProgressTracker.Sessions, id: string, r: Stage<Result<Final>>, stamp: string, now: real)
    requires ProgressTracker.ValidTracker(t)
    requires |r.events| > 1 && r.events[0] == Init
    requires r.result.Failure? ==> r.events[|r.events| - 1] == Problem(RunFailure + r.result.error)
    requires r.result.Success? ==> r.events[|r.events| - 1] == Finish(100.0)
    ensures var s := Replay(t, id, r.events, stamp, now)[id];
      (r.result.Success? ==> s.status == ProgressTracker.Completed && s.overall == 100.0) &&
      (r.result.Failure? ==>
         s.status == ProgressTracker.Error && |s.errors| > 0 &&
         s.errors[|s.errors| - 1] == "[" + stamp + "] " + RunFailure + r.result.error)
  {
    ReplayEnds(t, id, r.events, stamp, now);
  }

  /** The `callback` of `_run_analysis`: absent, or called with the
      session id and the final record, where it returns (`None`) or
      raises an exception whose text is given (`Some`). */
  datatype Callback = NoCallback | WithCallback(outcome: (string, Final) -> Option<string>)

  /** The end of `_run_analysis` with its callback: a successful run calls
      it after the overall 100, inside the same `try`, so a callback that
      raises is reported like any other failure and the run raises. */
  function Notified(id: string, run: Stage<Result<Final>>, callback: Callback): (r: Stage<Result<Final>>)
    requires |run.events| > 1 && run.events[0] == Init
    requires run.result.Failure? ==> run.events[|run.events| - 1] == Problem(RunFailure + run.result.error)
    requires run.result.Success? ==> run.events[|run.events| - 1] == Finish(100.0)
    ensures |r.events| >= |run.events| && r.events[0] == Init && r.events[..|run.events|] == run.events
    ensures r.result.Failure? ==> r.events[|r.events| - 1] == Problem(RunFailure + r.result.error)
    ensures r.result.Success? ==> r == run
    ensures r.result.Failure? <==>
      run.result.Failure? || (callback.WithCallback? && callback.outcome(id, run.result.value).Some?)
    ensures run.result.Failure? ==> r == run
  {
    match run.result
    case Failure(_) => run
    case Success(f) =>
      if callback.NoCallback? then run
      else match callback.outcome(id, f)
        case None => run
        case Some(e) => Stage(run.events + [Problem(RunFailure + e)], Failure(e))
  }

  const WorkerFailure: string := "분석 중 예상치 못한 오류 발생: "

  /** The worker `start_analysis` runs: when `_run_analysis` raises, the
      exception is reported a second time, with the worker's own text. */
  function Worker(run: Stage<Result<Final>>): (r: seq<Event>)
    ensures run.result.Success? ==> r == run.events
    ensures run.result.Failure? ==> r == run.events + [Problem(WorkerFailure + run.result.error)]
  {
    if run.result.Failure? then run.events + [Problem(WorkerFailure + run.result.error)] else run.events
  }

  /** Replaying one more error report is `add_error` on the state so far. */
  lemma ReplayProblem(t: ProgressTracker.Sessions, id: string, events: seq<Event>, m: string, stamp: string, now: real)
    requires ProgressTracker.ValidTracker(t)
    ensures Replay(t, id, events + [Problem(m)], stamp, now) ==
      ProgressTracker.AddError(Replay(t, id, events, stamp, now), id, m, stamp, now)
  {
    assert (events + [Problem(m)])[..|events|] == events;
  }

  /** A callback that raises after a successful run turns the completed
      session into a failed one: the overall percentage stays at 100, the
      status becomes "error" and the run's error text is logged last. */
  lemma RaisingCallbackFailsSession(t: ProgressTracker.Sessions, id: string, run: Stage<Result<Final>>,
                                    callback: Callback, stamp: string, now: real)
    requires ProgressTracker.ValidTracker(t)
    requires |run.events| > 1 && run.events[0] == Init
    requires run.result.Success? && run.events[|run.events| - 1] == Finish(100.0)
    requires callback.WithCallback? && callback.outcome(id, run.result.value).Some?
    ensures var e := callback.outcome(id, run.result.value).value;
      var r := Notified(id, run, callback);
      var s := Replay(t, id, r.events, stamp, now)[id];
      && r.result == Failure(e)
      && s.status == ProgressTracker.Error && s.overall == 100.0
      && s.errors[|s.errors| - 1] == "[" + stamp + "] " + RunFailure + e
  {
    var e := callback.outcome(id, run.result.value).value;
    ReplayEnds(t, id, run.events, stamp, now);
    ReplayProblem(t, id, run.events, RunFailure + e, stamp, now);
  }

  /** When `_run_analysis` raises, its own error report is followed by
      the worker's report of the same exception. */
  lemma WorkerReportsTwice(t: ProgressTracker.Sessions, id: string, run: Stage<Result<Final>>, stamp: string, now: real)
    requires ProgressTracker.ValidTracker(t)
    requires |run.events| > 1 && run.events[0] == Init
    requires run.result.Failure? && run.events[|run.events| - 1] == Problem(RunFailure + run.result.error)
    ensures var s := Replay(t, id, Worker(run), stamp, now)[id];
      && s.status == ProgressTracker.Error && |s.errors| >= 2
      && s.errors[|s.errors| - 2] == "[" + stamp + "] " + RunFailure + run.result.error
      && s.errors[|s.errors| - 1] == "[" + stamp + "] " + WorkerFailure + run.result.error
  {
    ReplayEnds(t, id, run.events, stamp, now);
    ReplayProblem(t, id, run.events, WorkerFailure + run.result.error, stamp, now);
  }

  const CancelMessage: string := "사용자에 의해 분석이 취소되었습니다."

  /** `cancel_analysis`: the cancellation is recorded as an error report,
      which marks the session failed (creating it when unknown) and leaves
      every other session alone; the answer is always true, and the
      analysis thread itself is not stopped. */
  function CancelAnalysis(t: ProgressTracker.Sessions, id: string, stamp: string, now: real): (r: (bool, ProgressTracker.Sessions))
    requires ProgressTracker.ValidTracker(t)
    ensures r.0 && ProgressTracker.ValidTracker(r.1)
    ensures id in r.1 && r.1[id].status == ProgressTracker.Error
    ensures |r.1[id].errors| > 0 && r.1[id].errors[|r.1[id].errors| - 1] == "[" + stamp + "] " + CancelMessage
    ensures forall k :: k != id ==> (k in r.1 <==> k in t) && (k in t ==> r.1[k] == t[k])
  {
    (true, ProgressTracker.AddError(t, id, CancelMessage, stamp, now))
  }

  /** `cancel_analysis` as written, through the tracker's lock: it blocks
      for a session the tracker does not know, and otherwise answers as
      the sequential version does. */
  function CancelAsWritten(t: ProgressTracker.Sessions, id: string, stamp: string, now: real): (r: ProgressTracker.Locked<(bool, ProgressTracker.Sessions)>)
    requires ProgressTracker.ValidTracker(t)
    ensures r.Blocked? <==> id !in t
    ensures r.Done? ==> r.value == CancelAnalysis(t, id, stamp, now)
  {
    var w := ProgressTracker.AddErrorAsWritten(t, id, CancelMessage, stamp, now);
    if w.Blocked? then ProgressTracker.Blocked else ProgressTracker.Done((true, w.value))
  }

  /** Cancelling a session after its cleanup blocks, where the sequential
      version records the cancellation on a new session. */
  lemma CancelAfterCleanupBlocks(t: ProgressTracker.Sessions, id: string, stamp: string, now: real)
    requires ProgressTracker.ValidTracker(t)
    ensures var gone := ProgressTracker.CleanupSession(t, id).1;
      && ProgressTracker.ValidTracker(gone)
      && CancelAsWritten(gone, id, stamp, now).Blocked?
      && id in CancelAnalysis(gone, id, stamp, now).1
  {
  }

  // ---------------------------------------------------------------------
  // The classification handed to the scorers
  // ---------------------------------------------------------------------

  /** `GetConcat` as a fact to quantify over. */
  predicate GetConcatHolds(a: Dict, b: Dict, k: string) {
    Get(a + b, k) == if HasKey(a, k) then Get(a, k) else Get(b, k)
  }

  lemma AllGetConcat(a: Dict, b: Dict)
    ensures forall k :: GetConcatHolds(a, b, k)
  {
    forall k {
      GetConcat(a, b, k);
    }
  }

  /** The scorers' input as evidently intended: the classified type as a
      string, which the type-aware scorers read; the analyses follow
      unchanged. */
  function TypedChainInput(c: Classifier.Classification, analysis: Dict): (r: Dict)
    ensures Get(r, "project_type") == Some(VStr(c.projectType))
    ensures forall k :: k != "project_type" ==> Get(r, k) == Get(analysis, k)
  {
    var head: Dict := [("project_type", VStr(c.projectType))];
    AllGetConcat(head, analysis);
    assert forall k :: k != "project_type" ==> !HasKey(head, k);
    head + analysis
  }

  /** As written, the network-effect scorer receives the classification
      record as its type, fails on it and reports 0 with an error status,
      whatever the model would have answered. */
  lemma RecordInputFailsScorer(c: Classifier.Classification, analysis: Dict, criteria: ChainUtils.Criteria,
                               llm: LlmScorer.Llm, decode: string -> Option<Value>, elapsed: real)
    ensures var r := NetworkEffect.Invoke(criteria, llm, decode, VMap(ChainInput(AsValue(Some(c)), analysis)), elapsed);
      Get(r, "score") == Some(VNum(0.0)) && Get(r, "status") == Some(VStr("ERROR"))
  {
    NetworkEffect.RecordTypeGivesErrorResult(criteria, llm, decode, ChainInput(AsValue(Some(c)), analysis),
                                             Classifier.AsDict(c), elapsed);
  }

  /** With the type passed as a string, the same scorer evaluates and
      tags its record with the classified type whenever the materials are
      usable and the model's reply parses. */
  lemma TypedInputReachesScorer(c: Classifier.Classification, analysis: Dict, criteria: ChainUtils.Criteria,
                                llm: LlmScorer.Llm, decode: string -> Option<Value>)
    requires BaseChain.CheckDataAvailability(TypedChainInput(c, analysis)).Success?
    requires GetOr(TypedChainInput(c, analysis), "parsed_data", VMap([])).VMap?
    requires var data := TypedChainInput(c, analysis);
      var parsed := GetOr(data, "parsed_data", VMap([])).entries;
      var limitations := BaseChain.CheckDataAvailability(data).value;
      var reply := llm(LlmScorer.PromptFor(NetworkEffect.Scoring, criteria, data, parsed, limitations));
      reply.Success? && LlmScorer.Parse(NetworkEffect.Scoring, reply.value, decode).Success?
    ensures var a := LlmScorer.Analyze(NetworkEffect.Scoring, criteria, llm, decode, TypedChainInput(c, analysis));
      a.Success? && Get(a.value, "project_type") == Some(VStr(c.projectType))
  {
    NetworkEffect.StringTypeIsUsed(criteria, llm, decode, TypedChainInput(c, analysis), c.projectType);
  }

  /** Legacy-mode classification reaches the manager as `None`: the run
      gets through every scorer and then fails at the final stage. */
  lemma LegacyNoneFailsAtFinalStage(id: string, files: seq<(string, string)>, analyze: Analyzer, classify: Classify,
                                    invoke: Invoke, reg: ConfigManager.Registry)
    requires forall i, j :: 0 <= i < j < |files| ==> files[i].0 != files[j].0
    requires classify(AnalyzeFiles(files, analyze).result) == Success(None)
    ensures var r := RunAnalysis(id, files, analyze, classify, invoke, reg);
      r.result.Failure? && Milestones(r.events) == Opened + Scored
  {
    RunWhenClassifierAnswers(id, files, analyze, classify, invoke, reg);
    assert Opened + (Scored + []) == Opened + Scored;
  }
}
