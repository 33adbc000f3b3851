/** The user engagement chain (src/chain/user_engagement_chain.py): the model scores
    user experience and engagement. Everything but its constants is the shared scorer. */
module UserEngagement {
  import opened Wrappers
  import opened Values
  import opened Scores
  import opened ChainUtils
  import opened LlmScorer
  import BaseChain

  const ChainName: string := "UserEngagementChain"

  const Defaults: seq<string> := [
    "직관적인 사용자 인터페이스 설계로 학습 곡선 최소화",
    "개인화 기능과 맞춤형 경험 제공으로 참여도 향상",
    "게임화 요소 도입으로 사용자 동기 부여 강화"]

  const FallbackSuggestions: seq<string> := [
    "사용자 중심의 디자인 원칙 적용",
    "사용성 테스트를 통한 UX 개선",
    "참여 유도를 위한 인터랙티브 요소 추가"]

  const AspectNames: seq<string> := ["user_experience_quality", "interface_design_quality", "engagement_features", "usability_efficiency", "user_satisfaction_potential"]

  const AspectsKey: string := "engagement_aspects"

  const Scoring: Scorer := Scorer(
    "사용자 참여도 평가가 완료되었습니다.",
    None,
    [
      ("engagement_analysis", VMap([])),
      ("ux_strengths", VList([])),
      ("usability_issues", VList([])),
      ("engagement_aspects", VMap([]))],
    Defaults,
    Fallback(
      "사용자 참여도 평가를 완료할 수 없어 기본 점수를 제공합니다. 추가 정보가 필요합니다.",
      FallbackSuggestions,
      [
      ("engagement_analysis", VMap([
        ("user_experience", VStr("정보 부족으로 분석 불가")),
        ("user_interface", VStr("정보 부족으로 분석 불가")),
        ("engagement_features", VStr("정보 부족으로 분석 불가")),
        ("usability_satisfaction", VStr("정보 부족으로 분석 불가"))])),
      ("ux_strengths", VList([VStr("평가 정보 부족")])),
      ("usability_issues", VList([VStr("사용자 참여도 분석을 위한 충분한 정보 부족")])),
      ("engagement_aspects", VMap(Neutral(AspectNames)))]),
    Untyped)

  lemma ScoringValid()
    ensures ValidScorer(Scoring)
  {
  }

  /** `invoke` on this chain. */
  function Invoke(c: Criteria, llm: Llm, decode: string -> Option<Value>, input: Value, elapsed: real): Dict {
    LlmScorer.Invoke(Scoring, ChainName, c, llm, decode, input, elapsed)
  }

  /** The fallback record: the neutral score, the chain's own three
      suggestions, all five aspects at 5.0, and the limitations note
      exactly when some material is missing. */
  lemma FallbackIsNeutral(limitations: seq<string>)
    ensures var r := FallbackResult(Scoring, limitations);
      && Get(r, "score") == Some(VNum(NeutralScore))
      && Get(r, "suggestions") == Some(VList(AsStrings(FallbackSuggestions)))
      && Get(r, AspectsKey) == Some(VMap(Neutral(AspectNames)))
      && (HasKey(r, LimitationsKey) <==> |limitations| > 0)
  {
    ScoringValid();
    var extras := Scoring.fallback.extras;
    assert |extras[0].0| == 19;
    assert |extras[1].0| == 12;
    assert |extras[2].0| == 16;
    assert |extras[3].0| == |AspectsKey| == 18;
    FallbackNeutral(Scoring, limitations, 3, AspectNames);
  }
}
