/** The accessibility chain (src/chain/accessibility_chain.py): a fully
    deterministic scorer. Four keyword groups, named after the four
    principles of WCAG 2.1, award fixed points when any of their words
    occurs in the project's text; three hard-coded phrases deduct points;
    the four clamped sub-scores are combined with fixed weights. */
module Accessibility {
  import opened Wrappers
  import opened Text
  import opened Values
  import opened Scores
  import BaseChain

  const ChainName: string := "AccessibilityChain"

  const PerceivableWords: seq<string> := [
    "대체 텍스트", "alt text", "스크린 리더", "screen reader",
    "색상 대비", "color contrast", "자막", "caption", "수화",
    "시각 장애", "청각 장애", "색맹", "colorblind"]
  const OperableWords: seq<string> := [
    "키보드 네비게이션", "keyboard navigation", "포커스", "focus",
    "마우스 없이", "without mouse", "탭 순서", "tab order",
    "접근 키", "access key", "단축키", "shortcut"]
  const UnderstandableWords: seq<string> := [
    "명확한 언어", "clear language", "간단한 설명", "simple explanation",
    "사용자 가이드", "user guide", "도움말", "help", "오류 메시지",
    "error message", "입력 도움", "input help"]
  const RobustWords: seq<string> := [
    "호환성", "compatibility", "다양한 브라우저", "multiple browsers",
    "보조 기술", "assistive technology", "웹 표준", "web standards",
    "HTML 유효성", "HTML validation", "시맨틱", "semantic"]

  /** The negative keyword list the chain declares; no rule reads it. */
  const NegativeWords: seq<string> := [
    "접근성 고려 안함", "accessibility not considered",
    "시각적으로만", "visual only", "마우스 필수", "mouse required",
    "복잡한 인터페이스", "complex interface", "작은 글씨", "small text"]

  /** A scoring rule: keyword slices with the points each awards, and the
      phrases that deduct `deduction` points. */
  datatype Rule = Rule(groups: seq<(seq<string>, real)>, penalties: seq<string>, deduction: real)

  const Perceivable: Rule := Rule(
    [(PerceivableWords[..4], 4.0), (PerceivableWords[4..8], 3.0), (PerceivableWords[8..], 3.0)],
    ["시각적으로만", "visual only"], 1.0)
  const Operable: Rule := Rule(
    [(OperableWords[..6], 6.0), (OperableWords[6..], 4.0)],
    ["마우스 필수", "mouse required"], 2.0)
  const Understandable: Rule := Rule(
    [(UnderstandableWords[..4], 4.0), (UnderstandableWords[4..8], 4.0), (UnderstandableWords[8..], 2.0)],
    ["복잡한 인터페이스", "complex interface"], 1.0)
  const Robust: Rule := Rule(
    [(RobustWords[..4], 5.0), (RobustWords[4..], 5.0)], [], 0.0)

  /** `_contains_keywords`: some keyword, lower-cased, occurs in the
      lower-cased text. */
  predicate HitsAny(content: string, keywords: seq<string>) {
    exists i | 0 <= i < |keywords| :: Contains(Lower(content), Lower(keywords[i]))
  }

  /** The points of the groups the text hits. */
  function Points(content: string, groups: seq<(seq<string>, real)>): real {
    if |groups| == 0 then 0.0
    else (if HitsAny(content, groups[0].0) then groups[0].1 else 0.0) + Points(content, groups[1..])
  }

  function MaxPoints(groups: seq<(seq<string>, real)>): real {
    if |groups| == 0 then 0.0 else groups[0].1 + MaxPoints(groups[1..])
  }

  predicate Penalized(content: string, penalties: seq<string>) {
    exists i | 0 <= i < |penalties| :: Contains(content, penalties[i])
  }

  /** One `_evaluate_*` rule on the extracted text. */
  function PrincipleScore(content: string, rule: Rule): (r: real)
    ensures InRange(r)
  {
    var raw := Points(content, rule.groups) - (if Penalized(content, rule.penalties) then rule.deduction else 0.0);
    Clamp(raw, MinScore, MaxScore)
  }

  /** A text that hits no group of a rule scores 0 under it. */
  lemma {:induction false} NoHitsNoPoints(content: string, groups: seq<(seq<string>, real)>)
    requires forall i :: 0 <= i < |groups| ==> !HitsAny(content, groups[i].0)
    ensures Points(content, groups) == 0.0
  {
    if |groups| > 0 {
      assert !HitsAny(content, groups[0].0);
      NoHitsNoPoints(content, groups[1..]);
    }
  }

  /** A text that hits every group of a rule gets all its points. */
  lemma {:induction false} AllHitsAllPoints(content: string, groups: seq<(seq<string>, real)>)
    requires forall i :: 0 <= i < |groups| ==> HitsAny(content, groups[i].0)
    ensures Points(content, groups) == MaxPoints(groups)
  {
    if |groups| > 0 {
      assert HitsAny(content, groups[0].0);
      AllHitsAllPoints(content, groups[1..]);
    }
  }

  /** Points never exceed the rule's maximum and are never negative when
      every group awards a non-negative number. */
  lemma {:induction false} PointsBetween(content: string, groups: seq<(seq<string>, real)>)
    requires forall i :: 0 <= i < |groups| ==> groups[i].1 >= 0.0
    ensures 0.0 <= Points(content, groups) <= MaxPoints(groups)
  {
    if |groups| > 0 {
      PointsBetween(content, groups[1..]);
    }
  }

  /** Each of the four rules awards at most 10 points, in groups of
      non-negative points. */
  lemma RuleMaximum(rule: Rule)
    requires rule in {Perceivable, Operable, Understandable, Robust}
    ensures MaxPoints(rule.groups) == 10.0
    ensures forall i :: 0 <= i < |rule.groups| ==> rule.groups[i].1 >= 0.0
  {
    var g := rule.groups;
    if |g| == 3 {
      assert MaxPoints(g[3..]) == 0.0;
      assert MaxPoints(g[2..]) == g[2].1;
      assert MaxPoints(g[1..]) == g[1].1 + g[2].1;
    } else {
      assert MaxPoints(g[2..]) == 0.0;
      assert MaxPoints(g[1..]) == g[1].1;
    }
  }

  /** Without any keyword the principle scores 0; with every group hit
      and no deducting phrase it scores the full 10. */
  lemma PrincipleExtremes(content: string, rule: Rule)
    requires rule in {Perceivable, Operable, Understandable, Robust}
    ensures (forall i :: 0 <= i < |rule.groups| ==> !HitsAny(content, rule.groups[i].0)) ==>
      PrincipleScore(content, rule) == 0.0
    ensures ((forall i :: 0 <= i < |rule.groups| ==> HitsAny(content, rule.groups[i].0)) &&
      !Penalized(content, rule.penalties)) ==> PrincipleScore(content, rule) == 10.0
  {
    RuleMaximum(rule);
    if forall i :: 0 <= i < |rule.groups| ==> !HitsAny(content, rule.groups[i].0) {
      NoHitsNoPoints(content, rule.groups);
    }
    if forall i :: 0 <= i < |rule.groups| ==> HitsAny(content, rule.groups[i].0) {
      AllHitsAllPoints(content, rule.groups);
    }
  }

  // ---------------------------------------------------------------------
  // The text that is scored

  const AnalysisKeys: seq<string> := ["video_analysis", "document_analysis", "presentation_analysis"]

  /** The text of the analysis record under `key`: its `content` shown as
      text, when the record is a mapping and that content is truthy. */
  function RecordContent(data: Dict, key: string): (r: Option<string>)
    ensures r.Some? <==> HasKey(data, key) && Get(data, key).value.VMap? &&
                         Truthy(GetOr(Get(data, key).value.entries, "content", VStr("")))
  {
    var record := GetOr(data, key, VMap([]));
    if record.VMap? && Truthy(GetOr(record.entries, "content", VStr(""))) then
      Some(Show(GetOr(record.entries, "content", VStr(""))))
    else None
  }

  /** The project's own `content` shown as text, when the key is present. */
  function TopContent(data: Dict): (r: Option<string>)
    ensures r.Some? <==> HasKey(data, "content")
    ensures r.Some? ==> r.value == Show(Get(data, "content").value)
  {
    if HasKey(data, "content") then Some(Show(Get(data, "content").value)) else None
  }

  /** The texts that are present among `parts`, in order. */
  function Present(parts: seq<Option<string>>): (r: seq<string>)
    ensures |r| <= |parts|
    ensures forall j :: 0 <= j < |parts| && parts[j].Some? ==> parts[j].value in r
    ensures forall x :: x in r ==> Some(x) in parts
  {
    if |parts| == 0 then []
    else
      var rest := Present(parts[1..]);
      assert forall j :: 1 <= j < |parts| ==> parts[j] == parts[1..][j - 1];
      (if parts[0].Some? then [parts[0].value] else []) + rest
  }

  /** The texts of the analysis records under `keys`, in order. */
  function AnalysisContents(data: Dict, keys: seq<string>): seq<string> {
    if |keys| == 0 then []
    else
      var part := RecordContent(data, keys[0]);
      (if part.Some? then [part.value] else []) + AnalysisContents(data, keys[1..])
  }

  /** The scored texts, in the order `_extract_all_content` collects them:
      the video, document and presentation records, then the project's own
      content. */
  function Collected(data: Dict): seq<Option<string>> {
    [RecordContent(data, "video_analysis"), RecordContent(data, "document_analysis"),
     RecordContent(data, "presentation_analysis"), TopContent(data)]
  }

  /** `_extract_all_content`: the present texts, in order, joined by single
      spaces and lower-cased. */
  function ExtractAllContent(data: Dict): (r: string)
    ensures r == Lower(Join(" ", Present(Collected(data))))
    ensures Lower(r) == r
  {
    var parts := AnalysisContents(data, AnalysisKeys) + (if HasKey(data, "content") then [Show(Get(data, "content").value)] else []);
    CollectedInOrder(data);
    LowerIdempotent(Join(" ", parts));
    Lower(Join(" ", parts))
  }

  /** The record texts under `keys`, present or not, in order. */
  function Records(data: Dict, keys: seq<string>): (r: seq<Option<string>>)
    ensures |r| == |keys|
    ensures forall i :: 0 <= i < |keys| ==> r[i] == RecordContent(data, keys[i])
  {
    seq(|keys|, i requires 0 <= i < |keys| => RecordContent(data, keys[i]))
  }

  /** Walking the keys collects the present record texts, in order. */
  lemma {:induction false} ContentsArePresent(data: Dict, keys: seq<string>)
    ensures AnalysisContents(data, keys) == Present(Records(data, keys))
  {
    if |keys| > 0 {
      assert Records(data, keys)[1..] == Records(data, keys[1..]);
      ContentsArePresent(data, keys[1..]);
    }
  }

  lemma {:induction false} PresentConcat(a: seq<Option<string>>, b: seq<Option<string>>)
    ensures Present(a + b) == Present(a) + Present(b)
  {
    if |a| > 0 {
      assert (a + b)[1..] == a[1..] + b;
      PresentConcat(a[1..], b);
    } else {
      assert a + b == b;
    }
  }

  /** Walking the three record keys and then the project's own content
      collects what `Collected` lists. */
  lemma CollectedInOrder(data: Dict)
    ensures AnalysisContents(data, AnalysisKeys) + (if HasKey(data, "content") then [Show(Get(data, "content").value)] else []) ==
      Present(Collected(data))
  {
    var top := TopContent(data);
    assert Collected(data) == Records(data, AnalysisKeys) + [top];
    PresentConcat(Records(data, AnalysisKeys), [top]);
    ContentsArePresent(data, AnalysisKeys);
    assert [top][1..] == [];
  }

  /** The content of every collected analysis record is part of the
      scored text, lower-cased. */
  lemma RecordContentScored(data: Dict, k: string)
    requires k in AnalysisKeys && RecordContent(data, k).Some?
    ensures Contains(ExtractAllContent(data), Lower(RecordContent(data, k).value))
  {
    var j := if k == AnalysisKeys[0] then 0 else if k == AnalysisKeys[1] then 1 else 2;
    assert Collected(data)[j] == RecordContent(data, k);
    PartScored(data, RecordContent(data, k).value);
  }

  /** The project's own content is part of the scored text, lower-cased. */
  lemma TopContentScored(data: Dict)
    requires HasKey(data, "content")
    ensures Contains(ExtractAllContent(data), Lower(Show(Get(data, "content").value)))
  {
    assert Collected(data)[3] == TopContent(data);
    PartScored(data, Show(Get(data, "content").value));
  }

  lemma PartScored(data: Dict, t: string)
    requires t in Present(Collected(data))
    ensures Contains(ExtractAllContent(data), Lower(t))
  {
    var parts := Present(Collected(data));
    var i :| 0 <= i < |parts| && parts[i] == t;
    JoinContains(" ", parts, i);
    ContainsLower(Join(" ", parts), t);
  }

  /** Plain project text with no analysis records is scored as itself,
      lower-cased. */
  lemma PlainTextContent(data: Dict, s: string)
    requires Get(data, "content") == Some(VStr(s))
    requires forall i :: 0 <= i < |AnalysisKeys| ==> !HasKey(data, AnalysisKeys[i])
    ensures ExtractAllContent(data) == Lower(s)
  {
    NoRecordsNoContents(data, AnalysisKeys);
    assert Show(Get(data, "content").value) == s;
  }

  lemma {:induction false} NoRecordsNoContents(data: Dict, keys: seq<string>)
    requires forall i :: 0 <= i < |keys| ==> !HasKey(data, keys[i])
    ensures AnalysisContents(data, keys) == []
  {
    if |keys| > 0 {
      assert RecordContent(data, keys[0]).None?;
      NoRecordsNoContents(data, keys[1..]);
    }
  }

  // ---------------------------------------------------------------------
  // Total, reasoning, suggestions

  /** The four sub-scores. */
  datatype Detail = Detail(perceivable: real, operable: real, understandable: real, robust: real)

  predicate DetailInRange(d: Detail) {
    InRange(d.perceivable) && InRange(d.operable) && InRange(d.understandable) && InRange(d.robust)
  }

  function Evaluate(content: string): (r: Detail)
    ensures DetailInRange(r)
  {
    Detail(PrincipleScore(content, Perceivable), PrincipleScore(content, Operable),
           PrincipleScore(content, Understandable), PrincipleScore(content, Robust))
  }

  function Weighted(d: Detail): real {
    d.perceivable * 0.3 + d.operable * 0.3 + d.understandable * 0.25 + d.robust * 0.15
  }

  /** The chain's score: the weighted total, clamped. */
  function Total(d: Detail): (r: real)
    ensures InRange(r)
  {
    Clamp(Weighted(d), MinScore, MaxScore)
  }

  /** The weights sum to 1, so the clamp never changes a total of
      in-range sub-scores: the score is their weighted mean. */
  lemma TotalIsWeightedMean(d: Detail)
    requires DetailInRange(d)
    ensures Total(d) == Weighted(d)
  {
  }

  /** A text with no keyword from any group scores 0 in total; one that
      hits every group and no deducting phrase scores 10. */
  lemma TotalExtremes(content: string)
    ensures (forall r, i :: r in {Perceivable, Operable, Understandable, Robust} && 0 <= i < |r.groups| ==>
              !HitsAny(content, r.groups[i].0)) ==> Total(Evaluate(content)) == 0.0
    ensures (forall r, i :: r in {Perceivable, Operable, Understandable, Robust} && 0 <= i < |r.groups| ==>
              HitsAny(content, r.groups[i].0)) &&
            (forall r :: r in {Perceivable, Operable, Understandable, Robust} ==> !Penalized(content, r.penalties)) ==>
            Total(Evaluate(content)) == 10.0
  {
    PrincipleExtremes(content, Perceivable);
    PrincipleExtremes(content, Operable);
    PrincipleExtremes(content, Understandable);
    PrincipleExtremes(content, Robust);
  }

  // The longest clause is declared in two halves to keep proofs about its
  // characters small.
  const PerceivableGoodHead: string := "인식 가능성 측면에서 대체 텍스트, 색상 대비 등 "
  const PerceivableGoodTail: string := "시각/청각 장애인을 위한 고려사항이 잘 반영됨"
  const PerceivableGood: string := PerceivableGoodHead + PerceivableGoodTail
  const PerceivableFair: string := "인식 가능성 측면에서 기본적인 접근성 고려사항은 있으나 개선 여지가 있음"
  const PerceivablePoor: string := "인식 가능성 측면에서 시각/청각 장애인을 위한 접근성 고려가 부족함"
  const OperableGood: string := "키보드 네비게이션 등 운용 가능성이 잘 고려됨"
  const OperableFair: string := "운용 가능성 측면에서 기본적인 고려는 있으나 키보드 접근성 개선 필요"
  const OperablePoor: string := "키보드만으로 조작 가능한 인터페이스 설계가 부족함"
  const UnderstandableGood: string := "사용자 가이드와 명확한 설명으로 이해 가능성이 높음"
  const UnderstandableFair: string := "이해 가능성 측면에서 기본적인 설명은 제공되나 더 명확한 가이드 필요"
  const UnderstandablePoor: string := "사용자 이해를 돕는 명확한 설명과 가이드가 부족함"
  const RobustGood: string := "다양한 환경과 보조 기술에서의 호환성이 고려됨"
  const RobustPoor: string := "다양한 브라우저와 보조 기술과의 호환성 고려가 부족함"

  /** The clause for a sub-score with two thresholds. */
  function Tier(x: real, high: real, low: real, good: string, fair: string, poor: string): string {
    if x >= high then good else if x >= low then fair else poor
  }

  /** The good clause is chosen exactly at or above the upper threshold,
      since it differs from the other two. */
  lemma TierGood(x: real, high: real, low: real, good: string, fair: string, poor: string)
    requires good != fair && good != poor
    ensures Tier(x, high, low, good, fair, poor) == good <==> x >= high
  {
  }

  /** The four clauses of `_generate_reasoning`, by threshold. */
  function Clauses(d: Detail): (r: seq<string>)
    ensures |r| == 4
  {
    [Tier(d.perceivable, 5.0, 3.0, PerceivableGood, PerceivableFair, PerceivablePoor),
     Tier(d.operable, 4.0, 2.0, OperableGood, OperableFair, OperablePoor),
     Tier(d.understandable, 5.0, 3.0, UnderstandableGood, UnderstandableFair, UnderstandablePoor),
     if d.robust >= 3.0 then RobustGood else RobustPoor]
  }

  function Reasoning(d: Detail): string {
    Join("; ", Clauses(d))
  }

  /** Four clauses joined by "; " fall apart at the semicolons into the
      first clause and the other three after one space, when no clause
      holds a semicolon. */
  lemma SplitClauses(c: seq<string>)
    requires |c| >= 1 && forall i :: 0 <= i < |c| ==> ';' !in c[i]
    ensures Split(Join("; ", c), ';') == [c[0]] + Prefixed(" ", c[1..])
  {
    assert "; " == [';'] + " ";
    SplitWiderJoin(c, ';', " ");
  }

  lemma ClausesWithoutSemicolon(d: Detail)
    ensures forall i :: 0 <= i < 4 ==> ';' !in Clauses(d)[i]
  {
    PerceivableClausesPlain();
    OperableClausesPlain();
    UnderstandableClausesPlain();
    RobustClausesPlain();
  }

  lemma PerceivableClausesPlain()
    ensures ';' !in PerceivableGood && ';' !in PerceivableFair && ';' !in PerceivablePoor
  {
    PerceivableGoodPlain();
    PerceivableFairPlain();
  }

  lemma PerceivableGoodPlain()
    ensures ';' !in PerceivableGood
  {
    assert ';' !in PerceivableGoodHead && ';' !in PerceivableGoodTail;
  }

  lemma PerceivableFairPlain()
    ensures ';' !in PerceivableFair
  {
  }

  lemma OperableClausesPlain()
    ensures ';' !in OperableGood && ';' !in OperableFair && ';' !in OperablePoor
  {
    OperableGoodPlain();
    OperableFairPlain();
  }

  lemma OperableGoodPlain()
    ensures ';' !in OperableGood
  {
  }

  lemma OperableFairPlain()
    ensures ';' !in OperableFair
  {
  }

  lemma UnderstandableClausesPlain()
    ensures ';' !in UnderstandableGood && ';' !in UnderstandableFair && ';' !in UnderstandablePoor
  {
    UnderstandableGoodPlain();
    UnderstandableFairPlain();
  }

  lemma UnderstandableGoodPlain()
    ensures ';' !in UnderstandableGood
  {
  }

  lemma UnderstandableFairPlain()
    ensures ';' !in UnderstandableFair
  {
  }

  lemma RobustClausesPlain()
    ensures ';' !in RobustGood && ';' !in RobustPoor
  {
  }

  /** The reasoning has exactly the four clauses, one per principle, each
      chosen by its sub-score's threshold. */
  lemma ReasoningHasFourClauses(d: Detail)
    ensures var parts := Split(Reasoning(d), ';');
      |parts| == 4 && parts[0] == Clauses(d)[0] &&
      forall i :: 1 <= i < 4 ==> parts[i] == " " + Clauses(d)[i]
    ensures Clauses(d)[0] == PerceivableGood <==> d.perceivable >= 5.0
    ensures Clauses(d)[1] == OperableGood <==> d.operable >= 4.0
    ensures Clauses(d)[2] == UnderstandableGood <==> d.understandable >= 5.0
    ensures Clauses(d)[3] == RobustGood <==> d.robust >= 3.0
  {
    ReasoningSplits(d);
    ClausesChosen(d);
  }

  lemma ReasoningSplits(d: Detail)
    ensures var parts := Split(Reasoning(d), ';');
      |parts| == 4 && parts[0] == Clauses(d)[0] &&
      forall i :: 1 <= i < 4 ==> parts[i] == " " + Clauses(d)[i]
  {
    ClausesWithoutSemicolon(d);
    FourWaySplit(Clauses(d));
  }

  lemma ClausesChosen(d: Detail)
    ensures Clauses(d)[0] == PerceivableGood <==> d.perceivable >= 5.0
    ensures Clauses(d)[1] == OperableGood <==> d.operable >= 4.0
    ensures Clauses(d)[2] == UnderstandableGood <==> d.understandable >= 5.0
    ensures Clauses(d)[3] == RobustGood <==> d.robust >= 3.0
  {
    ClausesDiffer();
    TierGood(d.perceivable, 5.0, 3.0, PerceivableGood, PerceivableFair, PerceivablePoor);
    TierGood(d.operable, 4.0, 2.0, OperableGood, OperableFair, OperablePoor);
    TierGood(d.understandable, 5.0, 3.0, UnderstandableGood, UnderstandableFair, UnderstandablePoor);
  }

  /** Four semicolon-free clauses joined by "; " split back into the
      first clause and the other three, each after one space. */
  lemma FourWaySplit(c: seq<string>)
    requires |c| == 4 && forall i :: 0 <= i < 4 ==> ';' !in c[i]
    ensures var parts := Split(Join("; ", c), ';');
      |parts| == 4 && parts[0] == c[0] && forall i :: 1 <= i < 4 ==> parts[i] == " " + c[i]
  {
    SplitClauses(c);
    var p := Prefixed(" ", c[1..]);
    var parts := [c[0]] + p;
    assert |p| == 3;
    forall i | 1 <= i < 4 ensures parts[i] == " " + c[i] {
      assert parts[i] == p[i - 1] && c[1..][i - 1] == c[i];
    }
  }

  lemma ClausesDiffer()
    ensures PerceivableGood != PerceivableFair && PerceivableGood != PerceivablePoor
    ensures OperableGood != OperableFair && OperableGood != OperablePoor
    ensures UnderstandableGood != UnderstandableFair && UnderstandableGood != UnderstandablePoor
    ensures RobustGood != RobustPoor
  {
    assert |PerceivableGoodHead| > 10 && PerceivableGoodHead[7] == '측';
    assert PerceivableGood[7] == '측' && PerceivableFair[7] == '측';
  }

  const PerceivableAdvice: seq<string> := [
    "모든 이미지와 미디어에 대체 텍스트 제공",
    "색상 대비비를 WCAG 2.1 AA 기준(4.5:1) 이상으로 조정",
    "비디오 콘텐츠에 자막 및 수화 통역 제공"]
  const OperableAdvice: seq<string> := [
    "키보드만으로 모든 기능 접근 가능하도록 개선",
    "논리적인 탭 순서 설정 및 포커스 표시 명확화",
    "마우스 호버 기능에 키보드 대안 제공"]
  const UnderstandableAdvice: seq<string> := [
    "명확하고 간단한 언어로 사용자 인터페이스 작성",
    "상세한 사용자 가이드 및 도움말 시스템 구축",
    "입력 오류 시 구체적인 수정 방법 안내"]
  const RobustAdvice: seq<string> := [
    "웹 표준 준수 및 HTML 유효성 검증",
    "다양한 브라우저와 보조 기술에서 테스트 수행",
    "시맨틱 HTML 사용으로 구조적 접근성 향상"]
  const KeepAdvice: string := "현재 접근성 수준을 유지하며 정기적인 접근성 테스트 수행"

  /** Every piece of advice for the deficient principles, in order. */
  function AllAdvice(d: Detail): seq<string> {
    (if d.perceivable < 5.0 then PerceivableAdvice else []) +
    (if d.operable < 4.0 then OperableAdvice else []) +
    (if d.understandable < 5.0 then UnderstandableAdvice else []) +
    (if d.robust < 3.0 then RobustAdvice else [])
  }

  /** `_generate_suggestions` */
  function Suggestions(d: Detail): seq<string> {
    var all := AllAdvice(d);
    var chosen := if |all| == 0 then [KeepAdvice] else all;
    if |chosen| > 5 then chosen[..5] else chosen
  }

  function Deficient(d: Detail): nat {
    (if d.perceivable < 5.0 then 1 else 0) + (if d.operable < 4.0 then 1 else 0) +
    (if d.understandable < 5.0 then 1 else 0) + (if d.robust < 3.0 then 1 else 0)
  }

  /** Three pieces of advice per deficient principle, at most five kept;
      the single keep-it-up line when none is deficient. */
  lemma SuggestionsCount(d: Detail)
    ensures Deficient(d) == 0 ==> Suggestions(d) == [KeepAdvice]
    ensures Deficient(d) > 0 ==> |Suggestions(d)| == if 3 * Deficient(d) > 5 then 5 else 3 * Deficient(d)
    ensures 1 <= |Suggestions(d)| <= 5
    ensures d.perceivable < 5.0 ==> Suggestions(d)[..3] == PerceivableAdvice
  {
  }

  predicate Distinct(xs: seq<string>) {
    forall i, j :: 0 <= i < j < |xs| ==> xs[i] != xs[j]
  }

  lemma DistinctConcat(xs: seq<string>, ys: seq<string>)
    requires Distinct(xs) && Distinct(ys) && Disjoint(xs, ys)
    ensures Distinct(xs + ys)
  {
    var zs := xs + ys;
    forall i, j | 0 <= i < j < |zs| ensures zs[i] != zs[j] {
      if j < |xs| {
        assert zs[i] == xs[i] && zs[j] == xs[j];
      } else if i >= |xs| {
        assert zs[i] == ys[i - |xs|] && zs[j] == ys[j - |xs|];
      } else {
        assert zs[i] == xs[i] && zs[j] == ys[j - |xs|];
        assert xs[i] in xs && ys[j - |xs|] in ys;
      }
    }
  }

  /** The twelve pieces of advice are twelve different texts. */
  lemma AdviceBlocksDistinct()
    ensures Distinct(PerceivableAdvice) && Distinct(OperableAdvice)
    ensures Distinct(UnderstandableAdvice) && Distinct(RobustAdvice)
    ensures Disjoint(PerceivableAdvice, OperableAdvice) && Disjoint(PerceivableAdvice, UnderstandableAdvice)
    ensures Disjoint(PerceivableAdvice, RobustAdvice) && Disjoint(OperableAdvice, UnderstandableAdvice)
    ensures Disjoint(OperableAdvice, RobustAdvice) && Disjoint(UnderstandableAdvice, RobustAdvice)
  {
    AdviceBlocksDisjoint();
  }

  lemma AdviceBlocksDisjoint()
    ensures Disjoint(PerceivableAdvice, OperableAdvice) && Disjoint(PerceivableAdvice, UnderstandableAdvice)
    ensures Disjoint(PerceivableAdvice, RobustAdvice) && Disjoint(OperableAdvice, UnderstandableAdvice)
    ensures Disjoint(OperableAdvice, RobustAdvice) && Disjoint(UnderstandableAdvice, RobustAdvice)
  {
  }

  predicate Disjoint(xs: seq<string>, ys: seq<string>) {
    forall x :: x in xs ==> x !in ys
  }

  /** No piece of advice appears twice. */
  lemma SuggestionsDistinct(d: Detail)
    ensures Distinct(Suggestions(d))
  {
    AdviceBlocksDistinct();
    ChosenBlocksDistinct(PerceivableAdvice, OperableAdvice, UnderstandableAdvice, RobustAdvice,
      d.perceivable < 5.0, d.operable < 4.0, d.understandable < 5.0, d.robust < 3.0);
    var all := AllAdvice(d);
    if |all| > 5 {
      assert forall i, j :: 0 <= i < j < 5 ==> all[..5][i] == all[i] && all[..5][j] == all[j];
    }
  }

  /** Any choice of pairwise disjoint blocks without repeats, laid end to
      end, has no repeats. */
  lemma ChosenBlocksDistinct(p: seq<string>, o: seq<string>, u: seq<string>, r: seq<string>,
                             bp: bool, bo: bool, bu: bool, br: bool)
    requires Distinct(p) && Distinct(o) && Distinct(u) && Distinct(r)
    requires Disjoint(p, o) && Disjoint(p, u) && Disjoint(p, r)
    requires Disjoint(o, u) && Disjoint(o, r) && Disjoint(u, r)
    ensures Distinct((if bp then p else []) + (if bo then o else []) + (if bu then u else []) + (if br then r else []))
  {
    var p' := if bp then p else [];
    var o' := if bo then o else [];
    var u' := if bu then u else [];
    var r' := if br then r else [];
    DistinctConcat(u', r');
    DisjointConcat(o', u', r');
    DistinctConcat(o', u' + r');
    DisjointConcat(p', u', r');
    DisjointConcat(p', o', u' + r');
    DistinctConcat(p', o' + (u' + r'));
    assert p' + o' + u' + r' == p' + (o' + (u' + r'));
  }

  lemma DisjointConcat(xs: seq<string>, ys: seq<string>, zs: seq<string>)
    requires Disjoint(xs, ys) && Disjoint(xs, zs)
    ensures Disjoint(xs, ys + zs)
  {
  }

  // ---------------------------------------------------------------------
  // The chain's result

  function DetailEntries(d: Detail): Dict {
    [("perceivable", VNum(d.perceivable)), ("operable", VNum(d.operable)),
     ("understandable", VNum(d.understandable)), ("robust", VNum(d.robust))]
  }

  /** The four fixed entries of the result. */
  function BaseRecord(score: real, reasoning: string, suggestions: seq<string>, detail: Dict): Dict {
    [("score", VNum(score)), ("reasoning", VStr(reasoning)), ("suggestions", VList(AsStrings(suggestions))),
     ("detailed_scores", VMap(detail))]
  }

  function WithLimitations(base: Dict, limitations: seq<string>): Dict {
    if |limitations| > 0 then base + [("data_limitations", VStr(Join("; ", limitations)))] else base
  }

  /** `_analyze`: the availability check runs first and can fail on a
      record that is not a mapping. */
  function Analyze(data: Dict): (r: Result<Dict>)
    ensures r.Success? <==> BaseChain.CheckDataAvailability(data).Success?
  {
    match BaseChain.CheckDataAvailability(data)
    case Failure(e) => Failure(e)
    case Success(limitations) =>
      var d := Evaluate(ExtractAllContent(data));
      Success(WithLimitations(BaseRecord(Total(d), Reasoning(d), Suggestions(d), DetailEntries(d)), limitations))
  }

  lemma BaseRecordFields(score: real, reasoning: string, suggestions: seq<string>, detail: Dict)
    ensures var b := BaseRecord(score, reasoning, suggestions, detail);
      Get(b, "score") == Some(VNum(score)) && !HasKey(b, "data_limitations") && UniqueKeys(b)
  {
    var b := BaseRecord(score, reasoning, suggestions, detail);
    GetIndex(b, 0);
    GetMissing(b, "data_limitations");
  }

  /** The result's score is the weighted total; `data_limitations` is
      present exactly when some source lacks content, and then lists the
      missing sources. */
  lemma AnalyzeFields(data: Dict)
    requires BaseChain.CheckDataAvailability(data).Success?
    ensures var r := Analyze(data).value;
      var limitations := BaseChain.CheckDataAvailability(data).value;
      Get(r, "score") == Some(VNum(Total(Evaluate(ExtractAllContent(data))))) && UniqueKeys(r) &&
      (HasKey(r, "data_limitations") <==> |limitations| > 0) &&
      (|limitations| > 0 ==> Get(r, "data_limitations") == Some(VStr(Join("; ", limitations))))
  {
    var d := Evaluate(ExtractAllContent(data));
    var limitations := BaseChain.CheckDataAvailability(data).value;
    var b := BaseRecord(Total(d), Reasoning(d), Suggestions(d), DetailEntries(d));
    BaseRecordFields(Total(d), Reasoning(d), Suggestions(d), DetailEntries(d));
    LimitedFields(b, Total(d), limitations);
    assert Analyze(data).value == WithLimitations(b, limitations);
  }

  /** Adding the note keeps the score and the keys distinct. */
  lemma LimitedFields(b: Dict, score: real, limitations: seq<string>)
    requires Get(b, "score") == Some(VNum(score)) && !HasKey(b, "data_limitations") && UniqueKeys(b)
    ensures var r := WithLimitations(b, limitations);
      Get(r, "score") == Some(VNum(score)) && UniqueKeys(r) &&
      (HasKey(r, "data_limitations") <==> |limitations| > 0) &&
      (|limitations| > 0 ==> Get(r, "data_limitations") == Some(VStr(Join("; ", limitations))))
  {
    var extra := VStr(Join("; ", limitations));
    GetAppend(b, "data_limitations", extra, "score");
    GetAppend(b, "data_limitations", extra, "data_limitations");
    if |limitations| > 0 {
      var r := b + [("data_limitations", extra)];
      KeysMissing(b, "data_limitations");
      forall i, j | 0 <= i < j < |r| ensures r[i].0 != r[j].0 {
        if j == |b| {
          assert r[i].0 == b[i].0;
        } else {
          assert r[i] == b[i] && r[j] == b[j];
        }
      }
    }
  }

  lemma KeysMissing(d: Dict, k: string)
    requires !HasKey(d, k)
    ensures forall i :: 0 <= i < |d| ==> d[i].0 != k
  {
    forall i | 0 <= i < |d| ensures d[i].0 != k {
      BaseChain.KeysIndex(d, i);
    }
  }

  /** `invoke`: the standardised score is the weighted total itself. */
  function Invoke(input: Value, elapsed: real): Dict {
    BaseChain.Invoke(input, ChainName, Analyze, elapsed)
  }

  lemma InvokeScoreIsTotal(data: Dict, elapsed: real)
    requires BaseChain.CheckDataAvailability(data).Success?
    ensures Get(Invoke(VMap(data), elapsed), "score") == Some(VNum(Total(Evaluate(ExtractAllContent(data)))))
  {
    AnalyzeFields(data);
    BaseChain.InvokeKeepsScore(data, ChainName, Analyze, elapsed, Analyze(data).value,
                               Total(Evaluate(ExtractAllContent(data))));
  }
}
