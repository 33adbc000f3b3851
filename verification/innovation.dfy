/** The innovation chain (src/chain/innovation_chain.py): the model scores
    originality and technical novelty. Everything but its constants is the shared scorer. */
module Innovation {
  import opened Wrappers
  import opened Values
  import opened Scores
  import opened ChainUtils
  import opened LlmScorer
  import BaseChain

  const ChainName: string := "InnovationChain"

  const Defaults: seq<string> := [
    "더 구체적인 혁신 요소를 명시하여 차별화 강화",
    "기술적 참신성을 높이기 위한 추가 연구 개발",
    "시장에서의 혁신적 가치 제안 명확화"]

  const FallbackSuggestions: seq<string> := [
    "프로젝트의 혁신적 요소를 더 구체적으로 설명",
    "기술적 참신성과 창의성을 명확히 제시",
    "기존 솔루션과의 차별점 강조"]

  const AspectNames: seq<string> := ["idea_originality", "technical_novelty", "creative_approach", "market_innovation", "value_creation"]

  const AspectsKey: string := "innovation_aspects"

  const Scoring: Scorer := Scorer(
    "혁신성 평가가 완료되었습니다.",
    Some("improvement_suggestions"),
    [
      ("strengths", VList([])),
      ("weaknesses", VList([])),
      ("innovation_aspects", VMap([]))],
    Defaults,
    Fallback(
      "혁신성 평가를 완료할 수 없어 기본 점수를 제공합니다. 추가 정보가 필요합니다.",
      FallbackSuggestions,
      [
      ("strengths", VList([VStr("평가 정보 부족")])),
      ("weaknesses", VList([VStr("혁신성 평가를 위한 충분한 정보 부족")])),
      ("innovation_aspects", VMap(Neutral(AspectNames)))]),
    Untyped)

  lemma ScoringValid()
    ensures ValidScorer(Scoring)
  {
  }

  /** `invoke` on this chain. */
  function Invoke(c: Criteria, llm: Llm, decode: string -> Option<Value>, input: Value, elapsed: real): Dict {
    LlmScorer.Invoke(Scoring, ChainName, c, llm, decode, input, elapsed)
  }

  /** The fallback record: the neutral score, the chain's own three
      suggestions, all five aspects at 5.0, and the limitations note
      exactly when some material is missing. */
  lemma FallbackIsNeutral(limitations: seq<string>)
    ensures var r := FallbackResult(Scoring, limitations);
      && Get(r, "score") == Some(VNum(NeutralScore))
      && Get(r, "suggestions") == Some(VList(AsStrings(FallbackSuggestions)))
      && Get(r, AspectsKey) == Some(VMap(Neutral(AspectNames)))
      && (HasKey(r, LimitationsKey) <==> |limitations| > 0)
  {
    ScoringValid();
    var extras := Scoring.fallback.extras;
    assert |extras[0].0| == 9;
    assert |extras[1].0| == 10;
    assert |extras[2].0| == |AspectsKey| == 18;
    FallbackNeutral(Scoring, limitations, 2, AspectNames);
  }

  /** A reply that gives its suggestions under the older
      "improvement_suggestions" key, and not under "suggestions", keeps
      them. */
  lemma LegacySuggestionsKept(d: Dict, xs: seq<Value>)
    requires !HasKey(d, "suggestions")
    requires Get(d, "improvement_suggestions") == Some(VList(xs)) && |xs| > 0
    ensures Get(Normalize(Scoring, d), "suggestions") == Some(VList(xs))
  {
    ScoringValid();
    NormalizeSuggestions(Scoring, d);
  }
}
