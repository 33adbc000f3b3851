/** The cost analysis chain (src/chain/cost_analysis_chain.py): the model scores
    cost efficiency and return on investment. Everything but its constants is the shared scorer. */
module CostAnalysis {
  import opened Wrappers
  import opened Values
  import opened Scores
  import opened ChainUtils
  import opened LlmScorer
  import BaseChain

  const ChainName: string := "CostAnalysisChain"

  const Defaults: seq<string> := [
    "개발 비용 최적화를 위한 기술 스택 재검토",
    "운영 비용 절감을 위한 클라우드 서비스 활용",
    "수익 모델 다각화를 통한 ROI 개선"]

  const FallbackSuggestions: seq<string> := [
    "구체적인 개발 비용 계획 수립",
    "운영 비용 예측 및 최적화 방안 마련",
    "명확한 수익 모델과 ROI 계산"]

  const AspectNames: seq<string> := ["development_efficiency", "operational_efficiency", "revenue_potential", "cost_optimization", "sustainability"]

  const AspectsKey: string := "cost_aspects"

  const Scoring: Scorer := Scorer(
    "비용 효율성 평가가 완료되었습니다.",
    None,
    [
      ("cost_breakdown", VMap([])),
      ("strengths", VList([])),
      ("risks", VList([])),
      ("cost_aspects", VMap([]))],
    Defaults,
    Fallback(
      "비용 효율성 평가를 완료할 수 없어 기본 점수를 제공합니다. 추가 정보가 필요합니다.",
      FallbackSuggestions,
      [
      ("cost_breakdown", VMap([
        ("development_cost", VStr("정보 부족으로 분석 불가")),
        ("operational_cost", VStr("정보 부족으로 분석 불가")),
        ("expected_revenue", VStr("정보 부족으로 분석 불가")),
        ("roi_estimate", VStr("정보 부족으로 계산 불가"))])),
      ("strengths", VList([VStr("평가 정보 부족")])),
      ("risks", VList([VStr("비용 분석을 위한 충분한 정보 부족")])),
      ("cost_aspects", VMap(Neutral(AspectNames)))]),
    Untyped)

  lemma ScoringValid()
    ensures ValidScorer(Scoring)
  {
  }

  /** `invoke` on this chain. */
  function Invoke(c: Criteria, llm: Llm, decode: string -> Option<Value>, input: Value, elapsed: real): Dict {
    LlmScorer.Invoke(Scoring, ChainName, c, llm, decode, input, elapsed)
  }

  /** The fallback record: the neutral score, the chain's own three
      suggestions, all five aspects at 5.0, and the limitations note
      exactly when some material is missing. */
  lemma FallbackIsNeutral(limitations: seq<string>)
    ensures var r := FallbackResult(Scoring, limitations);
      && Get(r, "score") == Some(VNum(NeutralScore))
      && Get(r, "suggestions") == Some(VList(AsStrings(FallbackSuggestions)))
      && Get(r, AspectsKey) == Some(VMap(Neutral(AspectNames)))
      && (HasKey(r, LimitationsKey) <==> |limitations| > 0)
  {
    ScoringValid();
    var extras := Scoring.fallback.extras;
    assert |extras[0].0| == 14;
    assert |extras[1].0| == 9;
    assert |extras[2].0| == 5;
    assert |extras[3].0| == |AspectsKey| == 12;
    FallbackNeutral(Scoring, limitations, 3, AspectNames);
  }
}
