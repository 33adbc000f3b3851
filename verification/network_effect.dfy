/** The network effect chain (src/chain/network_effect_chain.py): the model scores
    direct, indirect and data network effects. Everything but its constants is the shared scorer. */
module NetworkEffect {
  import opened Wrappers
  import opened Values
  import opened Scores
  import opened ChainUtils
  import opened LlmScorer
  import BaseChain

  const ChainName: string := "NetworkEffectChain"

  const Defaults: seq<string> := [
    "사용자 간 상호작용 기능 강화로 직접 네트워크 효과 증대",
    "양면 시장 구조 도입으로 간접 네트워크 효과 활용",
    "사용자 데이터 활용한 개인화 서비스로 데이터 네트워크 효과 구현"]

  const FallbackSuggestions: seq<string> := [
    "사용자 간 상호작용 요소 추가",
    "커뮤니티 기능을 통한 네트워크 효과 강화",
    "바이럴 성장을 위한 공유 및 추천 시스템 구현"]

  const AspectNames: seq<string> := ["direct_network_effect", "indirect_network_effect", "data_network_effect", "social_network_effect", "viral_growth_potential"]

  const AspectsKey: string := "network_aspects"

  const Scoring: Scorer := Scorer(
    "네트워크 효과 평가가 완료되었습니다.",
    None,
    [
      ("network_analysis", VMap([])),
      ("strengths", VList([])),
      ("limitations", VList([])),
      ("network_aspects", VMap([]))],
    Defaults,
    Fallback(
      "네트워크 효과 평가를 완료할 수 없어 기본 점수를 제공합니다. 추가 정보가 필요합니다.",
      FallbackSuggestions,
      [
      ("network_analysis", VMap([
        ("direct_effects", VStr("정보 부족으로 분석 불가")),
        ("indirect_effects", VStr("정보 부족으로 분석 불가")),
        ("data_effects", VStr("정보 부족으로 분석 불가")),
        ("viral_potential", VStr("정보 부족으로 분석 불가"))])),
      ("strengths", VList([VStr("평가 정보 부족")])),
      ("limitations", VList([VStr("네트워크 효과 분석을 위한 충분한 정보 부족")])),
      ("network_aspects", VMap(Neutral(AspectNames)))]),
    Typed(
      "Pain Killer 기준 (필수적 네트워크 문제 해결)",
      "Vitamin 기준 (부가적 네트워크 가치 제공)",
      "Pain Killer + Vitamin 기준 (균형적 네트워크 효과)",
      " 유형 기반 네트워크 효과 평가"))

  lemma ScoringValid()
    ensures ValidScorer(Scoring)
  {
  }

  /** `invoke` on this chain. */
  function Invoke(c: Criteria, llm: Llm, decode: string -> Option<Value>, input: Value, elapsed: real): Dict {
    LlmScorer.Invoke(Scoring, ChainName, c, llm, decode, input, elapsed)
  }

  /** The fallback record: the neutral score, the chain's own three
      suggestions, all five aspects at 5.0, and the limitations note
      exactly when some material is missing. */
  lemma FallbackIsNeutral(limitations: seq<string>)
    ensures var r := FallbackResult(Scoring, limitations);
      && Get(r, "score") == Some(VNum(NeutralScore))
      && Get(r, "suggestions") == Some(VList(AsStrings(FallbackSuggestions)))
      && Get(r, AspectsKey) == Some(VMap(Neutral(AspectNames)))
      && (HasKey(r, LimitationsKey) <==> |limitations| > 0)
  {
    ScoringValid();
    var extras := Scoring.fallback.extras;
    assert |extras[0].0| == 16;
    assert |extras[1].0| == 9;
    assert |extras[2].0| == 11;
    assert |extras[3].0| == |AspectsKey| == 15;
    FallbackNeutral(Scoring, limitations, 3, AspectNames);
  }

  /** Given a whole classification record as its project type, `invoke`
      returns the base error record: score 0.0 and status "ERROR". */
  lemma RecordTypeGivesErrorResult(c: Criteria, llm: Llm, decode: string -> Option<Value>,
                                   data: Dict, record: Dict, elapsed: real)
    requires Get(data, "project_type") == Some(VMap(record))
    ensures var r := Invoke(c, llm, decode, VMap(data), elapsed);
      Get(r, "score") == Some(VNum(0.0)) && Get(r, "status") == Some(VStr("ERROR"))
  {
    LlmScorer.RecordTypeGivesErrorResult(Scoring, ChainName, c, llm, decode, data, record, elapsed);
  }

  /** Given the type as a string, the chain evaluates and tags its
      record with that type. */
  lemma StringTypeIsUsed(c: Criteria, llm: Llm, decode: string -> Option<Value>, data: Dict, projectType: string)
    requires Get(data, "project_type") == Some(VStr(projectType))
    requires BaseChain.CheckDataAvailability(data).Success?
    requires GetOr(data, "parsed_data", VMap([])).VMap?
    requires var parsed := GetOr(data, "parsed_data", VMap([])).entries;
      var limitations := BaseChain.CheckDataAvailability(data).value;
      var reply := llm(PromptFor(Scoring, c, data, parsed, limitations));
      reply.Success? && Parse(Scoring, reply.value, decode).Success?
    ensures Analyze(Scoring, c, llm, decode, data).Success?
    ensures Get(Analyze(Scoring, c, llm, decode, data).value, "project_type") == Some(VStr(projectType))
  {
    ScoringValid();
    LlmScorer.StringTypeIsUsed(Scoring, c, llm, decode, data, projectType);
  }
}
