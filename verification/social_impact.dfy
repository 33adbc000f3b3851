/** The social impact chain (src/chain/social_impact_chain.py): the model scores
    the social problems a project addresses and whom it reaches. Everything but its constants is the shared scorer. */
module SocialImpact {
  import opened Wrappers
  import opened Values
  import opened Scores
  import opened ChainUtils
  import opened LlmScorer
  import BaseChain

  const ChainName: string := "SocialImpactChain"

  const Defaults: seq<string> := [
    "구체적인 사회 문제 해결 방안 명시",
    "소외계층을 위한 접근성 개선 방안 추가",
    "지역사회와의 협력 체계 구축"]

  const FallbackSuggestions: seq<string> := [
    "해결하고자 하는 사회 문제 명확히 정의",
    "사회적 가치 창출 방안 구체화",
    "수혜 대상과 영향 범위 명시"]

  const AspectNames: seq<string> := ["problem_solving_effectiveness", "social_value_creation", "inclusivity_accessibility", "community_contribution", "sustainability"]

  const AspectsKey: string := "impact_aspects"

  const Scoring: Scorer := Scorer(
    "사회적 영향도 평가가 완료되었습니다.",
    None,
    [
      ("impact_analysis", VMap([])),
      ("target_beneficiaries", VList([])),
      ("social_challenges", VList([])),
      ("impact_aspects", VMap([]))],
    Defaults,
    Fallback(
      "사회적 영향도 평가를 완료할 수 없어 기본 점수를 제공합니다. 추가 정보가 필요합니다.",
      FallbackSuggestions,
      [
      ("impact_analysis", VMap([
        ("problem_solving", VStr("정보 부족으로 분석 불가")),
        ("value_creation", VStr("정보 부족으로 분석 불가")),
        ("inclusivity", VStr("정보 부족으로 분석 불가")),
        ("community_contribution", VStr("정보 부족으로 분석 불가"))])),
      ("target_beneficiaries", VList([VStr("평가 정보 부족")])),
      ("social_challenges", VList([VStr("사회적 영향 분석을 위한 충분한 정보 부족")])),
      ("impact_aspects", VMap(Neutral(AspectNames)))]),
    Typed(
      "Pain Killer 기준 (필수적 사회적 문제 해결)",
      "Vitamin 기준 (부가적 사회적 가치 제공)",
      "Pain Killer + Vitamin 기준 (균형적 사회적 영향)",
      " 유형 기반 사회적 영향도 평가"))

  lemma ScoringValid()
    ensures ValidScorer(Scoring)
  {
  }

  /** `invoke` on this chain. */
  function Invoke(c: Criteria, llm: Llm, decode: string -> Option<Value>, input: Value, elapsed: real): Dict {
    LlmScorer.Invoke(Scoring, ChainName, c, llm, decode, input, elapsed)
  }

  /** The fallback record: the neutral score, the chain's own three
      suggestions, all five aspects at 5.0, and the limitations note
      exactly when some material is missing. */
  lemma FallbackIsNeutral(limitations: seq<string>)
    ensures var r := FallbackResult(Scoring, limitations);
      && Get(r, "score") == Some(VNum(NeutralScore))
      && Get(r, "suggestions") == Some(VList(AsStrings(FallbackSuggestions)))
      && Get(r, AspectsKey) == Some(VMap(Neutral(AspectNames)))
      && (HasKey(r, LimitationsKey) <==> |limitations| > 0)
  {
    ScoringValid();
    var extras := Scoring.fallback.extras;
    assert |extras[0].0| == 15;
    assert |extras[1].0| == 20;
    assert |extras[2].0| == 17;
    assert |extras[3].0| == |AspectsKey| == 14;
    FallbackNeutral(Scoring, limitations, 3, AspectNames);
  }

  /** Given a whole classification record as its project type, `invoke`
      returns the base error record: score 0.0 and status "ERROR". */
  lemma RecordTypeGivesErrorResult(c: Criteria, llm: Llm, decode: string -> Option<Value>,
                                   data: Dict, record: Dict, elapsed: real)
    requires Get(data, "project_type") == Some(VMap(record))
    ensures var r := Invoke(c, llm, decode, VMap(data), elapsed);
      Get(r, "score") == Some(VNum(0.0)) && Get(r, "status") == Some(VStr("ERROR"))
  {
    LlmScorer.RecordTypeGivesErrorResult(Scoring, ChainName, c, llm, decode, data, record, elapsed);
  }

  /** Given the type as a string, the chain evaluates and tags its
      record with that type. */
  lemma StringTypeIsUsed(c: Criteria, llm: Llm, decode: string -> Option<Value>, data: Dict, projectType: string)
    requires Get(data, "project_type") == Some(VStr(projectType))
    requires BaseChain.CheckDataAvailability(data).Success?
    requires GetOr(data, "parsed_data", VMap([])).VMap?
    requires var parsed := GetOr(data, "parsed_data", VMap([])).entries;
      var limitations := BaseChain.CheckDataAvailability(data).value;
      var reply := llm(PromptFor(Scoring, c, data, parsed, limitations));
      reply.Success? && Parse(Scoring, reply.value, decode).Success?
    ensures Analyze(Scoring, c, llm, decode, data).Success?
    ensures Get(Analyze(Scoring, c, llm, decode, data).value, "project_type") == Some(VStr(projectType))
  {
    ScoringValid();
    LlmScorer.StringTypeIsUsed(Scoring, c, llm, decode, data, projectType);
  }
}
