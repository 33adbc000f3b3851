/** The business-value chain (src/chain/business_value_chain.py): the
    project type and project text come from the shared helpers, the
    gateway is asked once, and its reply is read by the shared parser.
    The evaluation criteria lists come from the evaluation YAML file and
    are parameters here. */
module BusinessValue {
  import opened Wrappers
  import opened Text
  import opened Values
  import opened Scores
  import BaseChain
  import opened ChainUtils

  const ChainName: string := "BusinessValueChain"

  /** The balanced directive, appended with no separator and no bullet. */
  const BalancedDirective: string := "평가항목에 대해서 균등하게 적용할 수 있도록 하세요"

  /** `_build_system_prompt`'s criteria selection: unlike the shared
      helper, the balanced case concatenates the two lists and the
      directive with nothing between them. */
  function SelectedCriteria(c: Criteria, projectType: string): string {
    if Lower(projectType) == "painkiller" then BulletText(c.painkiller)
    else if Lower(projectType) == "vitamin" then BulletText(c.vitamin)
    else BulletText(c.painkiller) + BulletText(c.vitamin) + BalancedDirective
  }

  /** Read back line by line, a single-type section is exactly that list's
      bullets; the balanced section has one line fewer than its two lists
      together, because the last painkiller bullet, the first vitamin
      bullet and (after the last vitamin bullet) the directive run on. */
  lemma SelectedCriteriaLines(c: Criteria, projectType: string)
    requires |c.painkiller| > 0 && |c.vitamin| > 0
    requires forall i :: 0 <= i < |c.painkiller| ==> '\n' !in c.painkiller[i]
    requires forall i :: 0 <= i < |c.vitamin| ==> '\n' !in c.vitamin[i]
    ensures Lower(projectType) == "painkiller" ==>
      Split(SelectedCriteria(c, projectType), '\n') == Bullets(c.painkiller)
    ensures Lower(projectType) == "vitamin" ==>
      Split(SelectedCriteria(c, projectType), '\n') == Bullets(c.vitamin)
    ensures Lower(projectType) != "painkiller" && Lower(projectType) != "vitamin" ==>
      Split(SelectedCriteria(c, projectType), '\n') ==
        Glue(Glue(Bullets(c.painkiller), Bullets(c.vitamin)), [BalancedDirective]) &&
      |Split(SelectedCriteria(c, projectType), '\n')| == |c.painkiller| + |c.vitamin| - 1
  {
    var p := Bullets(c.painkiller);
    var v := Bullets(c.vitamin);
    BulletsSingleLine(c.painkiller);
    BulletsSingleLine(c.vitamin);
    JoinSplit(p, '\n');
    JoinSplit(v, '\n');
    var d := [BalancedDirective];
    assert '\n' !in BalancedDirective;
    GlueWithout(p, v, '\n');
    var pv := Glue(p, v);
    GlueWithout(pv, d, '\n');
    JoinGlue(p, v, "\n");
    JoinGlue(pv, d, "\n");
    JoinSplit(Glue(pv, d), '\n');
  }

  /** The instruction line for the selected type. */
  function WeightInstruction(projectType: string): string {
    if Lower(projectType) == "painkiller" then "이 프로젝트는 PainKiller 유형으로 분류되었으므로, Pain Killer 기준에 맞춰 평가하세요."
    else if Lower(projectType) == "vitamin" then "이 프로젝트는 Vitamin 유형으로 분류되었으므로, Vitamin 기준에 맞춰 평가하세요."
    else "이 프로젝트는 Balanced 유형으로 분류되었으므로, 두 기준을 균등하게 평가하세요."
  }

  /** The parts of the system prompt that vary: the type as given, the
      instruction and the criteria, one per line. */
  function SystemPrompt(c: Criteria, projectType: string): string {
    "(" + projectType + ")\n" + WeightInstruction(projectType) + "\n" + SelectedCriteria(c, projectType)
  }

  const ClassLabel: string := "**프로젝트 분류**: "
  const InfoLabel: string := "**프로젝트 정보**: "

  /** `_build_user_prompt`: the upper-cased type and the project text. */
  function UserPrompt(projectInfo: string, projectType: string): (r: string)
    ensures Contains(r, Upper(projectType)) && Contains(r, projectInfo)
  {
    var head := ClassLabel + Upper(projectType) + " 유형\n" + InfoLabel;
    var r := head + projectInfo;
    assert OccursAt(r, Upper(projectType), |ClassLabel|) by {
      assert r[|ClassLabel|..|ClassLabel| + |Upper(projectType)|] == Upper(projectType);
    }
    assert OccursAt(r, projectInfo, |head|) by {
      assert r[|head|..|head| + |projectInfo|] == projectInfo;
    }
    r
  }

  /** `_evaluate_business_value` */
  function EvaluateBusinessValue(c: Criteria, llm: Gateway, reader: Reader, projectInfo: string, projectType: string): Dict {
    Evaluate(llm, UserPrompt(projectInfo, projectType), SystemPrompt(c, projectType), projectType, reader)
  }

  /** `_analyze`: the type extraction and the rendering run outside the
      `try`, so a type that is not a string escapes as an exception. */
  function Analyze(c: Criteria, llm: Gateway, reader: Reader, data: Dict): (r: Result<Dict>)
    ensures r.Success? <==> ExtractProjectType(VMap(data)).Success?
    ensures r.Success? ==> Get(r.value, "project_type") == Some(VStr(ExtractProjectType(VMap(data)).value))
  {
    match ExtractProjectType(VMap(data))
    case Failure(e) => Failure(e)
    case Success(projectType) =>
      Success(EvaluateBusinessValue(c, llm, reader, ProcessInputData(VMap(data)), projectType))
  }

  /** `invoke` on this chain. */
  function Invoke(c: Criteria, llm: Gateway, reader: Reader, input: Value, elapsed: real): Dict {
    BaseChain.Invoke(input, ChainName, data => Analyze(c, llm, reader, data), elapsed)
  }

  /** The gateway's failure gives the neutral 5.0 of the error reply, not
      the 0.0 of the chain's error result. */
  lemma GatewayFailureIsNeutral(c: Criteria, llm: Gateway, reader: Reader, data: Dict)
    requires ExtractProjectType(VMap(data)).Success?
    requires var pt := ExtractProjectType(VMap(data)).value;
      llm(UserPrompt(ProcessInputData(VMap(data)), pt), SystemPrompt(c, pt)).Failure?
    ensures Analyze(c, llm, reader, data).Success?
    ensures Get(Analyze(c, llm, reader, data).value, "score") == Some(VNum(NeutralScore))
    ensures Get(Analyze(c, llm, reader, data).value, "evaluation_method") == Some(VStr(ErrorMethod))
  {
    var pt := ExtractProjectType(VMap(data)).value;
    var e := llm(UserPrompt(ProcessInputData(VMap(data)), pt), SystemPrompt(c, pt)).error;
    ErrorFields(e, pt);
  }

  /** Whatever the gateway replies, the chain's score is on the scale. */
  lemma AnalyzeScoreInRange(c: Criteria, llm: Gateway, reader: Reader, data: Dict)
    requires ExtractProjectType(VMap(data)).Success?
    ensures var r := Analyze(c, llm, reader, data).value;
      Get(r, "score").Some? && Get(r, "score").value.VNum? && InRange(Get(r, "score").value.n)
  {
    var pt := ExtractProjectType(VMap(data)).value;
    EvaluateScoreInRange(llm, UserPrompt(ProcessInputData(VMap(data)), pt), SystemPrompt(c, pt), pt, reader);
  }

  /** A project type that is a whole classification record (and no
      separate `classification` entry) makes the chain's `invoke` return
      its error result: score 0.0 and status "ERROR". */
  lemma RecordTypeGivesErrorResult(c: Criteria, llm: Gateway, reader: Reader, data: Dict, record: Dict, elapsed: real)
    requires Get(data, "project_type") == Some(VMap(record)) && !HasKey(data, "classification")
    ensures var r := Invoke(c, llm, reader, VMap(data), elapsed);
      Get(r, "score") == Some(VNum(0.0)) && Get(r, "status") == Some(VStr("ERROR"))
  {
    ProjectTypePrecedence(data, [], "", "");
    BaseChain.InvokeScoreInRange(VMap(data), ChainName, d => Analyze(c, llm, reader, d), elapsed);
  }

  const SampleProject: string := "AI 기반 문서 자동 분류 시스템 개발 프로젝트"

  /** `run`: the score of the fixed sample project. */
  function Run(c: Criteria, llm: Gateway, reader: Reader, elapsed: real): (r: real)
    ensures InRange(r)
  {
    var result := Invoke(c, llm, reader, VStr(SampleProject), elapsed);
    BaseChain.InvokeScoreInRange(VStr(SampleProject), ChainName, d => Analyze(c, llm, reader, d), elapsed);
    GetOr(result, "score", VNum(0.0)).n
  }

  /** The sample is a plain string, so it is evaluated as a balanced
      project. */
  lemma SampleIsBalanced()
    ensures ExtractProjectType(VMap(BaseChain.Preprocess(VStr(SampleProject)))) == Success("balanced")
  {
    var d := BaseChain.Preprocess(VStr(SampleProject));
    assert d == [("content", VStr(SampleProject))];
    GetMissing(d, "project_type");
    GetMissing(d, "classification");
    ProjectTypePrecedence(d, [], "", "");
  }
}
