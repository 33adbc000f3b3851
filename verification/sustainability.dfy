/** The sustainability chain (src/chain/sustainability_chain.py): the model scores
    environmental, social and governance sustainability. Everything but its constants is the shared scorer. */
module Sustainability {
  import opened Wrappers
  import opened Values
  import opened Scores
  import opened ChainUtils
  import opened LlmScorer
  import BaseChain

  const ChainName: string := "SustainabilityChain"

  const Defaults: seq<string> := [
    "환경 영향 최소화를 위한 친환경 기술 도입",
    "사회적 책임을 고려한 윤리적 운영 체계 구축",
    "장기적 수익성 확보를 위한 지속가능한 비즈니스 모델 개발"]

  const FallbackSuggestions: seq<string> := [
    "ESG 관점에서 환경, 사회, 거버넌스 요소 고려",
    "장기적 지속가능성을 위한 전략 수립",
    "이해관계자와의 상생 방안 마련"]

  const AspectNames: seq<string> := ["environmental_impact", "social_responsibility", "economic_viability", "governance_quality", "long_term_sustainability"]

  const AspectsKey: string := "sustainability_aspects"

  const Scoring: Scorer := Scorer(
    "지속가능성 평가가 완료되었습니다.",
    None,
    [
      ("sustainability_analysis", VMap([])),
      ("esg_strengths", VList([])),
      ("sustainability_risks", VList([])),
      ("sustainability_aspects", VMap([]))],
    Defaults,
    Fallback(
      "지속가능성 평가를 완료할 수 없어 기본 점수를 제공합니다. 추가 정보가 필요합니다.",
      FallbackSuggestions,
      [
      ("sustainability_analysis", VMap([
        ("environmental", VStr("정보 부족으로 분석 불가")),
        ("social", VStr("정보 부족으로 분석 불가")),
        ("economic", VStr("정보 부족으로 분석 불가")),
        ("governance", VStr("정보 부족으로 분석 불가"))])),
      ("esg_strengths", VList([VStr("평가 정보 부족")])),
      ("sustainability_risks", VList([VStr("지속가능성 분석을 위한 충분한 정보 부족")])),
      ("sustainability_aspects", VMap(Neutral(AspectNames)))]),
    Untyped)

  lemma ScoringValid()
    ensures ValidScorer(Scoring)
  {
  }

  /** `invoke` on this chain. */
  function Invoke(c: Criteria, llm: Llm, decode: string -> Option<Value>, input: Value, elapsed: real): Dict {
    LlmScorer.Invoke(Scoring, ChainName, c, llm, decode, input, elapsed)
  }

  /** The fallback record: the neutral score, the chain's own three
      suggestions, all five aspects at 5.0, and the limitations note
      exactly when some material is missing. */
  lemma FallbackIsNeutral(limitations: seq<string>)
    ensures var r := FallbackResult(Scoring, limitations);
      && Get(r, "score") == Some(VNum(NeutralScore))
      && Get(r, "suggestions") == Some(VList(AsStrings(FallbackSuggestions)))
      && Get(r, AspectsKey) == Some(VMap(Neutral(AspectNames)))
      && (HasKey(r, LimitationsKey) <==> |limitations| > 0)
  {
    ScoringValid();
    var extras := Scoring.fallback.extras;
    assert |extras[0].0| == 23;
    assert |extras[1].0| == 13;
    assert |extras[2].0| == 20;
    assert |extras[3].0| == |AspectsKey| == 22;
    FallbackNeutral(Scoring, limitations, 3, AspectNames);
  }
}
