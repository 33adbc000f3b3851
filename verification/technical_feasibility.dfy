/** The technical feasibility chain (src/chain/technical_feasibility_chain.py): the model scores
    whether the project can be built and scaled. Everything but its constants is the shared scorer. */
module TechnicalFeasibility {
  import opened Wrappers
  import opened Values
  import opened Scores
  import opened ChainUtils
  import opened LlmScorer
  import BaseChain

  const ChainName: string := "TechnicalFeasibilityChain"

  const Defaults: seq<string> := [
    "검증된 기술 스택 사용으로 개발 리스크 최소화",
    "단계적 개발 접근법으로 복잡도 관리",
    "확장 가능한 아키텍처 설계로 성장 대비"]

  const FallbackSuggestions: seq<string> := [
    "구체적인 기술 스택과 아키텍처 명시",
    "개발 일정과 리소스 계획 수립",
    "기술적 리스크 분석 및 대응 방안 마련"]

  const AspectNames: seq<string> := ["technology_maturity", "development_complexity", "infrastructure_feasibility", "scalability_potential", "technical_risk_level"]

  const AspectsKey: string := "feasibility_aspects"

  const Scoring: Scorer := Scorer(
    "기술적 실현가능성 평가가 완료되었습니다.",
    None,
    [
      ("technical_analysis", VMap([])),
      ("technical_strengths", VList([])),
      ("technical_risks", VList([])),
      ("feasibility_aspects", VMap([]))],
    Defaults,
    Fallback(
      "기술적 실현가능성 평가를 완료할 수 없어 기본 점수를 제공합니다. 추가 정보가 필요합니다.",
      FallbackSuggestions,
      [
      ("technical_analysis", VMap([
        ("technology_stack", VStr("정보 부족으로 분석 불가")),
        ("development_complexity", VStr("정보 부족으로 분석 불가")),
        ("infrastructure_requirements", VStr("정보 부족으로 분석 불가")),
        ("scalability_assessment", VStr("정보 부족으로 분석 불가"))])),
      ("technical_strengths", VList([VStr("평가 정보 부족")])),
      ("technical_risks", VList([VStr("기술적 실현가능성 분석을 위한 충분한 정보 부족")])),
      ("feasibility_aspects", VMap(Neutral(AspectNames)))]),
    Untyped)

  lemma ScoringValid()
    ensures ValidScorer(Scoring)
  {
  }

  /** `invoke` on this chain. */
  function Invoke(c: Criteria, llm: Llm, decode: string -> Option<Value>, input: Value, elapsed: real): Dict {
    LlmScorer.Invoke(Scoring, ChainName, c, llm, decode, input, elapsed)
  }

  /** The fallback record: the neutral score, the chain's own three
      suggestions, all five aspects at 5.0, and the limitations note
      exactly when some material is missing. */
  lemma FallbackIsNeutral(limitations: seq<string>)
    ensures var r := FallbackResult(Scoring, limitations);
      && Get(r, "score") == Some(VNum(NeutralScore))
      && Get(r, "suggestions") == Some(VList(AsStrings(FallbackSuggestions)))
      && Get(r, AspectsKey) == Some(VMap(Neutral(AspectNames)))
      && (HasKey(r, LimitationsKey) <==> |limitations| > 0)
  {
    ScoringValid();
    var extras := Scoring.fallback.extras;
    assert |extras[0].0| == 18;
    assert extras[1].0[0] == 't' && extras[3].0[0] == 'f';
    assert |extras[2].0| == 15;
    assert |extras[3].0| == |AspectsKey| == 19;
    FallbackNeutral(Scoring, limitations, 3, AspectNames);
  }
}
