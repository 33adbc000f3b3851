/** Helpers shared by the LLM-backed chains (src/chain/chain_utils.py):
    project-type extraction, rendering the input for the prompt, the
    criteria section of the system prompt, score validation, and the two
    ways of reading an LLM reply into a result record. `json.loads` is a
    function argument (`None` for a decode error) and the regular
    expressions of the fallback parser are replaced by their captures. */
module ChainUtils {
  import opened Wrappers
  import opened Text
  import opened Values
  import opened Scores

  // ---------------------------------------------------------------------
  // Project type

  /** `extract_project_type`: a `classification` mapping's type wins over
      the top-level `project_type`; "balanced" otherwise. A type that is
      not a string fails on `.lower()`. */
  function ExtractProjectType(input: Value): (r: Result<string>)
    ensures !input.VMap? ==> r == Success("balanced")
    ensures r.Success? ==> Lower(r.value) == r.value
  {
    BalancedIsLower();
    match input
    case VMap(d) =>
      var top := GetOr(d, "project_type", VStr("balanced"));
      var cls := GetOr(d, "classification", VNone);
      var chosen := if HasKey(d, "classification") && cls.VMap? then GetOr(cls.entries, "project_type", top) else top;
      if chosen.VStr? then
        LowerIdempotent(chosen.s);
        Success(Lower(chosen.s))
      else Failure("AttributeError: 'lower'")
    case _ => Success("balanced")
  }

  lemma BalancedIsLower()
    ensures Lower("balanced") == "balanced"
  {
    assert forall i | 0 <= i < 8 :: LowerChar("balanced"[i]) == "balanced"[i];
  }

  /** Where the project type comes from, in order of precedence: the
      `project_type` of a `classification` mapping, else the top-level
      `project_type` (also when `classification` is there but is no
      mapping), else "balanced"; whichever is chosen must be a string. */
  lemma ProjectTypePrecedence(d: Dict, cls: Dict, t: string, u: string)
    ensures Get(d, "classification") == Some(VMap(cls)) && Get(cls, "project_type") == Some(VStr(t)) ==>
      ExtractProjectType(VMap(d)) == Success(Lower(t))
    ensures (Get(d, "classification") == Some(VMap(cls)) && Get(cls, "project_type").Some? &&
             !Get(cls, "project_type").value.VStr?) ==>
      ExtractProjectType(VMap(d)).Failure?
    ensures (Get(d, "classification") == Some(VMap(cls)) && !HasKey(cls, "project_type") &&
             Get(d, "project_type") == Some(VStr(u))) ==>
      ExtractProjectType(VMap(d)) == Success(Lower(u))
    ensures (Get(d, "classification").Some? && !Get(d, "classification").value.VMap? &&
             Get(d, "project_type") == Some(VStr(u))) ==>
      ExtractProjectType(VMap(d)) == Success(Lower(u))
    ensures !HasKey(d, "classification") && Get(d, "project_type") == Some(VStr(u)) ==>
      ExtractProjectType(VMap(d)) == Success(Lower(u))
    ensures !HasKey(d, "classification") && !HasKey(d, "project_type") ==>
      ExtractProjectType(VMap(d)) == Success("balanced")
    ensures (Get(d, "project_type").Some? && !Get(d, "project_type").value.VStr? &&
             (!HasKey(d, "classification") || !Get(d, "classification").value.VMap?)) ==>
      ExtractProjectType(VMap(d)).Failure?
  {
    BalancedIsLower();
  }

  // ---------------------------------------------------------------------
  // Rendering the input

  const FieldLabels: seq<(string, string)> := [
    ("title", "프로젝트 제목"), ("description", "프로젝트 설명"), ("content", "내용"),
    ("summary", "요약"), ("details", "상세 내용")]

  /** The analysis keys and their `key.replace('_', ' ').title()` form. */
  const AnalysisTitles: seq<(string, string)> := [
    ("material_analysis", "Material Analysis"), ("parsed_data", "Parsed Data"),
    ("video_analysis", "Video Analysis"), ("document_analysis", "Document Analysis"),
    ("presentation_analysis", "Presentation Analysis")]

  /** The line of one labelled field: "label: value" when the value is
      truthy, nothing otherwise. */
  function FieldLine(d: Dict, field: (string, string)): string {
    var v := GetOr(d, field.0, VNone);
    if Truthy(v) then field.1 + ": " + Show(v) + "\n" else ""
  }

  /** The line of one analysis key: a mapping shows its content (else its
      summary) when that is truthy, any other truthy value shows itself. */
  function AnalysisLine(d: Dict, title: (string, string)): string {
    var v := GetOr(d, title.0, VNone);
    if !Truthy(v) then ""
    else if v.VMap? then
      var content := GetOr(v.entries, "content", GetOr(v.entries, "summary", VStr("")));
      if Truthy(content) then title.1 + ": " + Show(content) + "\n" else ""
    else title.1 + ": " + Show(v) + "\n"
  }

  function FieldLines(d: Dict, labels: seq<(string, string)>): string {
    if |labels| == 0 then "" else FieldLine(d, labels[0]) + FieldLines(d, labels[1..])
  }

  function AnalysisLines(d: Dict, titles: seq<(string, string)>): string {
    if |titles| == 0 then "" else AnalysisLine(d, titles[0]) + AnalysisLines(d, titles[1..])
  }

  /** `process_input_data` */
  function ProcessInputData(input: Value): (r: string)
    ensures input.VStr? ==> r == input.s
    ensures !input.VStr? && !input.VMap? ==> r == Show(input)
  {
    match input
    case VStr(s) => s
    case VMap(d) =>
      var info := FieldLines(d, FieldLabels) + AnalysisLines(d, AnalysisTitles);
      if info != "" then info else Show(input)
    case _ => Show(input)
  }

  /** The lines of a mapping's rendering: one per labelled field, in the
      order title, description, content, summary, details, then one per
      analysis key, in the order of `AnalysisTitles`. */
  function RenderedLines(d: Dict): (r: seq<string>)
    ensures |r| == |FieldLabels| + |AnalysisTitles|
  {
    seq(|FieldLabels|, i requires 0 <= i < |FieldLabels| => FieldLine(d, FieldLabels[i])) +
    seq(|AnalysisTitles|, i requires 0 <= i < |AnalysisTitles| => AnalysisLine(d, AnalysisTitles[i]))
  }

  /** Concatenating a first piece onto the rest. */
  lemma ConcatCons(first: string, rest: seq<string>)
    ensures Join("", [first] + rest) == first + Join("", rest)
  {
    if |rest| == 0 {
      assert [first] + rest == [first];
    } else {
      JoinCons("", first, rest);
    }
  }

  /** A concatenation is empty exactly when every piece is. */
  lemma {:induction false} ConcatEmpty(parts: seq<string>)
    ensures Join("", parts) == "" <==> forall i :: 0 <= i < |parts| ==> parts[i] == ""
    decreases |parts|
  {
    if |parts| > 0 {
      ConcatEmpty(parts[1..]);
      assert parts == [parts[0]] + parts[1..];
      ConcatCons(parts[0], parts[1..]);
      assert forall i :: 1 <= i < |parts| ==> parts[i] == parts[1..][i - 1];
    }
  }

  /** The field lines are the concatenation of one line per label. */
  lemma {:induction false} FieldLinesJoin(d: Dict, labels: seq<(string, string)>, lines: seq<string>)
    requires |lines| == |labels| && forall i :: 0 <= i < |labels| ==> lines[i] == FieldLine(d, labels[i])
    ensures FieldLines(d, labels) == Join("", lines)
    decreases |labels|
  {
    if |labels| > 0 {
      forall i | 0 <= i < |labels| - 1
        ensures lines[1..][i] == FieldLine(d, labels[1..][i])
      {
        assert lines[1..][i] == lines[i + 1];
      }
      FieldLinesJoin(d, labels[1..], lines[1..]);
      assert FieldLines(d, labels) == lines[0] + FieldLines(d, labels[1..]);
      assert lines == [lines[0]] + lines[1..];
      ConcatCons(lines[0], lines[1..]);
    }
  }

  /** The analysis lines are the concatenation of one line per key. */
  lemma {:induction false} AnalysisLinesJoin(d: Dict, titles: seq<(string, string)>, lines: seq<string>)
    requires |lines| == |titles| && forall i :: 0 <= i < |titles| ==> lines[i] == AnalysisLine(d, titles[i])
    ensures AnalysisLines(d, titles) == Join("", lines)
    decreases |titles|
  {
    if |titles| > 0 {
      forall i | 0 <= i < |titles| - 1
        ensures lines[1..][i] == AnalysisLine(d, titles[1..][i])
      {
        assert lines[1..][i] == lines[i + 1];
      }
      AnalysisLinesJoin(d, titles[1..], lines[1..]);
      assert AnalysisLines(d, titles) == lines[0] + AnalysisLines(d, titles[1..]);
      assert lines == [lines[0]] + lines[1..];
      ConcatCons(lines[0], lines[1..]);
    }
  }

  /** Field lines then analysis lines, as one concatenation. */
  lemma RenderJoin(d: Dict, labels: seq<(string, string)>, titles: seq<(string, string)>, fields: seq<string>, analyses: seq<string>)
    requires |labels| >= 1 && |titles| >= 1
    requires |fields| == |labels| && forall i :: 0 <= i < |labels| ==> fields[i] == FieldLine(d, labels[i])
    requires |analyses| == |titles| && forall i :: 0 <= i < |titles| ==> analyses[i] == AnalysisLine(d, titles[i])
    ensures FieldLines(d, labels) + AnalysisLines(d, titles) == Join("", fields + analyses)
  {
    FieldLinesJoin(d, labels, fields);
    AnalysisLinesJoin(d, titles, analyses);
    JoinConcat(fields, analyses, "");
  }

  /** A mapping is rendered as its field lines and then its analysis
      lines, each present only for a truthy value; when no line is
      present at all, as `str(input)`. */
  lemma ProcessMapping(d: Dict)
    ensures Join("", RenderedLines(d)) != "" ==> ProcessInputData(VMap(d)) == Join("", RenderedLines(d))
    ensures (forall i :: 0 <= i < |RenderedLines(d)| ==> RenderedLines(d)[i] == "") ==>
      ProcessInputData(VMap(d)) == Show(VMap(d))
  {
    var fields := seq(|FieldLabels|, i requires 0 <= i < |FieldLabels| => FieldLine(d, FieldLabels[i]));
    var analyses := seq(|AnalysisTitles|, i requires 0 <= i < |AnalysisTitles| => AnalysisLine(d, AnalysisTitles[i]));
    RenderJoin(d, FieldLabels, AnalysisTitles, fields, analyses);
    ConcatEmpty(RenderedLines(d));
  }

  /** The rendering is empty only for an empty string. */
  lemma ProcessInputDataEmpty(input: Value)
    ensures ProcessInputData(input) == "" <==> input == VStr("")
  {
    match input
    case VStr(_) =>
    case VMap(_) =>
    case VNone =>
    case VBool(_) =>
    case VNum(_) =>
    case VList(_) =>
  }

  /** A field list whose first field is present starts with that line. */
  lemma FieldLinesFirst(d: Dict, labels: seq<(string, string)>)
    requires |labels| > 0 && Truthy(GetOr(d, labels[0].0, VNone))
    ensures StartsWith(FieldLines(d, labels), labels[0].1 + ": " + Show(GetOr(d, labels[0].0, VNone)) + "\n")
  {
    var line := labels[0].1 + ": " + Show(GetOr(d, labels[0].0, VNone)) + "\n";
    assert FieldLines(d, labels) == line + FieldLines(d, labels[1..]);
    assert FieldLines(d, labels)[..|line|] == line;
  }

  /** A mapping with a title is rendered starting with its title line. */
  lemma TitleLineFirst(d: Dict)
    requires Truthy(GetOr(d, "title", VNone))
    ensures StartsWith(ProcessInputData(VMap(d)), "프로젝트 제목: " + Show(GetOr(d, "title", VNone)) + "\n")
  {
    assert FieldLabels[0] == ("title", "프로젝트 제목");
    FieldLinesFirst(d, FieldLabels);
    FieldsLead(d, "프로젝트 제목: " + Show(GetOr(d, "title", VNone)) + "\n");
  }

  /** A non-empty opening of the field lines opens the whole rendering. */
  lemma FieldsLead(d: Dict, line: string)
    requires |line| > 0 && StartsWith(FieldLines(d, FieldLabels), line)
    ensures StartsWith(ProcessInputData(VMap(d)), line)
  {
    var fields := FieldLines(d, FieldLabels);
    var info := fields + AnalysisLines(d, AnalysisTitles);
    assert info[..|fields|] == fields;
    assert info[..|line|] == fields[..|line|];
  }

  // ---------------------------------------------------------------------
  // Criteria section of the system prompt

  /** The two criteria lists a chain loads from its section of the
      evaluation configuration. */
  datatype Criteria = Criteria(painkiller: seq<string>, vitamin: seq<string>)

  /** The criteria as bullet lines, each "- " and one criterion, in order. */
  function Bullets(criteria: seq<string>): (r: seq<string>)
    ensures |r| == |criteria|
    ensures forall i :: 0 <= i < |r| ==> r[i] == "- " + criteria[i]
  {
    seq(|criteria|, i requires 0 <= i < |criteria| => "- " + criteria[i])
  }

  function BulletText(criteria: seq<string>): string {
    Join("\n", Bullets(criteria))
  }

  const EvenlyDirective: string := "- 평가항목에 대해서 균등하게 적용할 수 있도록 하세요"

  /** The criteria shown to the model: the painkiller list, the vitamin
      list, or for any other type both lists and an instruction to weigh
      them evenly, one item per line. */
  function CriteriaText(painkiller: seq<string>, vitamin: seq<string>, projectType: string): string {
    if Lower(projectType) == "painkiller" then BulletText(painkiller)
    else if Lower(projectType) == "vitamin" then BulletText(vitamin)
    else BulletText(painkiller) + "\n" + BulletText(vitamin) + "\n" + EvenlyDirective
  }

  /** No bullet spans two lines when no criterion does. */
  lemma BulletsSingleLine(criteria: seq<string>)
    requires forall i :: 0 <= i < |criteria| ==> '\n' !in criteria[i]
    ensures forall i :: 0 <= i < |Bullets(criteria)| ==> '\n' !in Bullets(criteria)[i]
  {
    var b := Bullets(criteria);
    forall i | 0 <= i < |b| ensures '\n' !in b[i] {
      assert b[i] == "- " + criteria[i];
    }
  }

  /** Reading a single-type criteria section back line by line gives the
      bullets of that type's list, when no criterion spans two lines. */
  lemma SingleCriteriaLines(painkiller: seq<string>, vitamin: seq<string>, projectType: string)
    requires |painkiller| > 0 && |vitamin| > 0
    requires forall i :: 0 <= i < |painkiller| ==> '\n' !in painkiller[i]
    requires forall i :: 0 <= i < |vitamin| ==> '\n' !in vitamin[i]
    ensures Lower(projectType) == "painkiller" ==>
      Split(CriteriaText(painkiller, vitamin, projectType), '\n') == Bullets(painkiller)
    ensures Lower(projectType) == "vitamin" ==>
      Split(CriteriaText(painkiller, vitamin, projectType), '\n') == Bullets(vitamin)
  {
    BulletsSingleLine(painkiller);
    BulletsSingleLine(vitamin);
    JoinSplit(Bullets(painkiller), '\n');
    JoinSplit(Bullets(vitamin), '\n');
  }

  /** The balanced section is the three parts joined by newlines. */
  lemma BalancedCriteriaJoin(p: seq<string>, v: seq<string>)
    requires |p| > 0 && |v| > 0
    ensures Join("\n", p + v + [EvenlyDirective]) == Join("\n", p) + "\n" + Join("\n", v) + "\n" + EvenlyDirective
  {
    JoinConcat(p, v + [EvenlyDirective], "\n");
    JoinConcat(v, [EvenlyDirective], "\n");
    assert p + (v + [EvenlyDirective]) == p + v + [EvenlyDirective];
  }

  /** For any other type the section reads back as both bullet lists
      followed by the instruction to weigh them evenly. */
  lemma BalancedCriteriaLines(painkiller: seq<string>, vitamin: seq<string>, projectType: string)
    requires |painkiller| > 0 && |vitamin| > 0
    requires forall i :: 0 <= i < |painkiller| ==> '\n' !in painkiller[i]
    requires forall i :: 0 <= i < |vitamin| ==> '\n' !in vitamin[i]
    requires Lower(projectType) != "painkiller" && Lower(projectType) != "vitamin"
    ensures Split(CriteriaText(painkiller, vitamin, projectType), '\n') ==
      Bullets(painkiller) + Bullets(vitamin) + [EvenlyDirective]
  {
    var p := Bullets(painkiller);
    var v := Bullets(vitamin);
    BulletsSingleLine(painkiller);
    BulletsSingleLine(vitamin);
    var all := p + v + [EvenlyDirective];
    assert '\n' !in EvenlyDirective;
    forall i | 0 <= i < |all| ensures '\n' !in all[i] {
      if i < |p| { assert all[i] == p[i]; }
      else if i < |p| + |v| { assert all[i] == v[i - |p|]; }
    }
    JoinSplit(all, '\n');
    BalancedCriteriaJoin(p, v);
    assert CriteriaText(painkiller, vitamin, projectType) == Join("\n", all);
  }

  // ---------------------------------------------------------------------
  // Scores and replies

  /** `validate_score`: clamped to 0..10, 5.0 for a value `float` rejects. */
  function ValidateScore(v: Value): (r: real)
    ensures InRange(r)
    ensures ToFloat(v).None? ==> r == NeutralScore
    ensures ToFloat(v).Some? ==> r == Clamp(ToFloat(v).value, MinScore, MaxScore)
  {
    ToScore(v, NeutralScore)
  }

  const NoReasoning: string := "평가 근거가 제공되지 않았습니다."
  const LlmMethod: string := "llm_based_with_classification"
  const FallbackMethod: string := "fallback_parsed"
  const ErrorMethod: string := "error_fallback"

  /** `d.setdefault(k, v)` */
  function SetDefault(d: Dict, k: string, v: Value): (r: Dict)
    ensures Get(r, k) == if HasKey(d, k) then Get(d, k) else Some(v)
    ensures forall j :: j != k ==> Get(r, j) == Get(d, j)
  {
    if HasKey(d, k) then d else Put(d, k, v)
  }

  /** The reasoning a reply keeps: a falsy one or a blank string is
      replaced; a non-empty non-string fails on `.strip()`. */
  function CheckedReasoning(v: Value): (r: Result<Value>)
    ensures r.Success? ==> r.value.VStr? && !IsBlank(r.value.s)
    ensures r.Failure? <==> Truthy(v) && !v.VStr?
  {
    NoReasoningNotBlank();
    if !Truthy(v) then Success(VStr(NoReasoning))
    else if !v.VStr? then Failure("AttributeError: 'strip'")
    else if IsBlank(v.s) then Success(VStr(NoReasoning))
    else Success(v)
  }

  const DefaultSuggestions: seq<Value> := [VStr("기본 개선 제안"), VStr("추가 정보 수집 필요")]
  const EmptySuggestions: seq<Value> := [VStr("기본 개선 제안"), VStr("추가 정보 수집 필요"), VStr("평가 기준 재검토")]

  /** The suggestions a reply keeps: a falsy value is replaced by three
      defaults; a non-empty value without a length fails on `len()`. */
  function CheckedSuggestions(v: Value): (r: Result<Value>)
    ensures r.Success? ==> Truthy(r.value)
    ensures r.Success? && Truthy(v) ==> r.value == v
    ensures r.Failure? <==> Truthy(v) && (v.VNum? || v.VBool?)
  {
    if !Truthy(v) then Success(VList(EmptySuggestions))
    else if v.VNum? || v.VBool? then Failure("TypeError: len()")
    else Success(v)
  }

  /** The decoded mapping with the three keys defaulted and the score
      validated in place: the score is the validated reply score (5.0
      when there is none); every other key keeps its value. */
  function WithDefaults(d: Dict): (r: Dict)
    ensures Get(r, "score") == Some(VNum(ValidateScore(GetOr(d, "score", VNum(NeutralScore)))))
    ensures InRange(Get(r, "score").value.n)
    ensures Get(r, "reasoning") == if HasKey(d, "reasoning") then Get(d, "reasoning") else Some(VStr(NoReasoning))
    ensures Get(r, "suggestions") == if HasKey(d, "suggestions") then Get(d, "suggestions") else Some(VList(DefaultSuggestions))
    ensures forall k :: k != "score" && k != "reasoning" && k != "suggestions" ==> Get(r, k) == Get(d, k)
  {
    assert |"score"| == 5 && |"reasoning"| == 9 && |"suggestions"| == 11;
    ThreeDefaults(d, "score", VNum(NeutralScore), "reasoning", VStr(NoReasoning),
                  "suggestions", VList(DefaultSuggestions));
    var d0 := SetDefault(d, "score", VNum(NeutralScore));
    var d1 := SetDefault(d0, "reasoning", VStr(NoReasoning));
    var d2 := SetDefault(d1, "suggestions", VList(DefaultSuggestions));
    Put(d2, "score", VNum(ValidateScore(Get(d2, "score").value)))
  }

  /** Three defaults under distinct keys: each key keeps a value it had
      and otherwise gets its default. */
  lemma ThreeDefaults(d: Dict, k1: string, v1: Value, k2: string, v2: Value, k3: string, v3: Value)
    requires k1 != k2 && k1 != k3 && k2 != k3
    ensures var r := SetDefault(SetDefault(SetDefault(d, k1, v1), k2, v2), k3, v3);
      Get(r, k1) == (if HasKey(d, k1) then Get(d, k1) else Some(v1)) &&
      Get(r, k2) == (if HasKey(d, k2) then Get(d, k2) else Some(v2)) &&
      Get(r, k3) == (if HasKey(d, k3) then Get(d, k3) else Some(v3))
  {
    var a := SetDefault(d, k1, v1);
    var b := SetDefault(a, k2, v2);
    var r := SetDefault(b, k3, v3);
    assert Get(a, k2) == Get(d, k2) && Get(a, k3) == Get(d, k3);
    assert Get(b, k1) == Get(a, k1) && Get(b, k3) == Get(a, k3);
    assert Get(r, k1) == Get(b, k1) && Get(r, k2) == Get(b, k2);
  }

  /** Storing the checked reasoning and suggestions and the two tags. */
  function Tagged(d: Dict, reasoning: Value, suggestions: Value, projectType: string): (r: Dict)
    ensures Get(r, "score") == Get(d, "score")
    ensures Get(r, "reasoning") == Some(reasoning)
    ensures Get(r, "suggestions") == Some(suggestions)
    ensures Get(r, "project_type") == Some(VStr(projectType))
    ensures Get(r, "evaluation_method") == Some(VStr(LlmMethod))
  {
    assert |"score"| == 5 && |"reasoning"| == 9 && |"suggestions"| == 11;
    assert |"project_type"| == 12 && |"evaluation_method"| == 17;
    FourPuts(d, "reasoning", reasoning, "suggestions", suggestions, "project_type", VStr(projectType),
             "evaluation_method", VStr(LlmMethod), "score");
    var d1 := Put(Put(d, "reasoning", reasoning), "suggestions", suggestions);
    Put(Put(d1, "project_type", VStr(projectType)), "evaluation_method", VStr(LlmMethod))
  }

  /** Four stores under distinct keys: each key holds its value and any
      other key is untouched. */
  lemma FourPuts(d: Dict, k1: string, v1: Value, k2: string, v2: Value, k3: string, v3: Value,
                 k4: string, v4: Value, k0: string)
    requires k1 != k2 && k1 != k3 && k1 != k4 && k2 != k3 && k2 != k4 && k3 != k4
    requires k0 != k1 && k0 != k2 && k0 != k3 && k0 != k4
    ensures var r := Put(Put(Put(Put(d, k1, v1), k2, v2), k3, v3), k4, v4);
      Get(r, k0) == Get(d, k0) && Get(r, k1) == Some(v1) && Get(r, k2) == Some(v2) &&
      Get(r, k3) == Some(v3) && Get(r, k4) == Some(v4)
  {
  }

  /** Completing a decoded reply; `Failure` is an exception that escapes
      `parse_llm_response` (only decode errors are caught there). A
      completed reply has a score on the scale, a non-blank reasoning
      string, non-empty suggestions, the project type and the method tag. */
  function CompleteReply(decoded: Value, projectType: string): (r: Result<Dict>)
    ensures !decoded.VMap? ==> r.Failure?
    ensures decoded.VMap? ==>
      (r.Success? <==> CheckedReasoning(GetOr(decoded.entries, "reasoning", VStr(NoReasoning))).Success? &&
                       CheckedSuggestions(GetOr(decoded.entries, "suggestions", VList(DefaultSuggestions))).Success?)
    ensures r.Success? ==>
      Get(r.value, "score") == Some(VNum(ValidateScore(GetOr(decoded.entries, "score", VNum(NeutralScore))))) &&
      Get(r.value, "reasoning") == Some(CheckedReasoning(GetOr(decoded.entries, "reasoning", VStr(NoReasoning))).value) &&
      Get(r.value, "suggestions") == Some(CheckedSuggestions(GetOr(decoded.entries, "suggestions", VList(DefaultSuggestions))).value)
    ensures r.Success? ==>
      Get(r.value, "score").Some? && Get(r.value, "score").value.VNum? && InRange(Get(r.value, "score").value.n) &&
      Get(r.value, "reasoning").Some? && Get(r.value, "reasoning").value.VStr? && !IsBlank(Get(r.value, "reasoning").value.s) &&
      Get(r.value, "suggestions").Some? && Truthy(Get(r.value, "suggestions").value) &&
      Get(r.value, "project_type") == Some(VStr(projectType)) &&
      Get(r.value, "evaluation_method") == Some(VStr(LlmMethod))
  {
    if !decoded.VMap? then Failure("AttributeError: 'setdefault'")
    else
      var d := WithDefaults(decoded.entries);
      match CheckedReasoning(Get(d, "reasoning").value)
      case Failure(e) => Failure(e)
      case Success(reasoning) =>
        match CheckedSuggestions(Get(d, "suggestions").value)
        case Failure(e) => Failure(e)
        case Success(suggestions) => Success(Tagged(d, reasoning, suggestions, projectType))
  }

  /** A reply whose fields are already well formed keeps them. */
  lemma WellFormedReplyKept(d: Dict, projectType: string, reasoning: string, suggestions: Value)
    requires Get(d, "reasoning") == Some(VStr(reasoning)) && !IsBlank(reasoning)
    requires Get(d, "suggestions") == Some(suggestions) && Truthy(suggestions) && !suggestions.VNum? && !suggestions.VBool?
    ensures CompleteReply(VMap(d), projectType).Success?
    ensures Get(CompleteReply(VMap(d), projectType).value, "reasoning") == Some(VStr(reasoning))
    ensures Get(CompleteReply(VMap(d), projectType).value, "suggestions") == Some(suggestions)
  {
    var w := WithDefaults(d);
    assert HasKey(d, "reasoning") && HasKey(d, "suggestions");
    assert Get(w, "reasoning") == Some(VStr(reasoning));
    assert reasoning != "";
    assert CheckedReasoning(VStr(reasoning)) == Success(VStr(reasoning));
    assert CheckedSuggestions(suggestions) == Success(suggestions);
  }

  /** What the regular-expression and JSON engines make of a reply:
      `decode` is `json.loads` (`None` on a decode error), `numbers` the
      numbers the five score patterns capture, `cues` the texts the three
      suggestion patterns capture. */
  datatype Reader = Reader(decode: string -> Option<Value>, numbers: string -> seq<real>, cues: string -> seq<string>)

  /** `parse_llm_response` */
  function ParseLlmResponse(response: string, projectType: string, reader: Reader): (r: Result<Dict>)
    ensures r.Success? ==> Get(r.value, "project_type") == Some(VStr(projectType))
    ensures BraceSpan(response).None? || reader.decode(BraceSpan(response).value).None? ==>
      r == Success(FallbackParse(response, projectType, reader.numbers(response), reader.cues(response)))
    ensures BraceSpan(response).Some? && reader.decode(BraceSpan(response).value).Some? ==>
      r == CompleteReply(reader.decode(BraceSpan(response).value).value, projectType)
  {
    FallbackFields(response, projectType, reader.numbers(response), reader.cues(response));
    match BraceSpan(response)
    case None => Success(FallbackParse(response, projectType, reader.numbers(response), reader.cues(response)))
    case Some(span) =>
      match reader.decode(span)
      case None => Success(FallbackParse(response, projectType, reader.numbers(response), reader.cues(response)))
      case Some(decoded) => CompleteReply(decoded, projectType)
  }

  /** The gateway: a pair of (user, system) messages in, the reply text or
      the exception out. */
  type Gateway = (string, string) -> Result<string>

  /** `LLMEvaluator.evaluate`, also the body of the business-value chain's
      `_evaluate_business_value`: every exception, from the gateway or
      from reading its reply, ends in `handle_llm_error`. */
  function Evaluate(llm: Gateway, userPrompt: string, systemPrompt: string, projectType: string, reader: Reader): (r: Dict)
    ensures Get(r, "project_type") == Some(VStr(projectType))
    ensures llm(userPrompt, systemPrompt).Failure? ==> r == HandleLlmError(llm(userPrompt, systemPrompt).error, projectType)
  {
    match llm(userPrompt, systemPrompt)
    case Failure(e) => ErrorFields(e, projectType); HandleLlmError(e, projectType)
    case Success(response) =>
      match ParseLlmResponse(response, projectType, reader)
      case Success(d) => d
      case Failure(e) => ErrorFields(e, projectType); HandleLlmError(e, projectType)
  }

  /** Whatever the gateway does, the evaluation's score is a number on the
      scale and its method tag is one of the three. */
  lemma EvaluateScoreInRange(llm: Gateway, userPrompt: string, systemPrompt: string, projectType: string, reader: Reader)
    ensures var r := Evaluate(llm, userPrompt, systemPrompt, projectType, reader);
      Get(r, "score").Some? && Get(r, "score").value.VNum? && InRange(Get(r, "score").value.n) &&
      Get(r, "evaluation_method") in {Some(VStr(LlmMethod)), Some(VStr(FallbackMethod)), Some(VStr(ErrorMethod))}
  {
    var r := Evaluate(llm, userPrompt, systemPrompt, projectType, reader);
    match llm(userPrompt, systemPrompt)
    case Failure(e) =>
      ErrorFields(e, projectType);
    case Success(response) =>
      match ParseLlmResponse(response, projectType, reader)
      case Success(d) =>
        if BraceSpan(response).None? || reader.decode(BraceSpan(response).value).None? {
          FallbackFields(response, projectType, reader.numbers(response), reader.cues(response));
        }
      case Failure(e) =>
        ErrorFields(e, projectType);
  }

  lemma NoReasoningNotBlank()
    ensures !IsBlank(NoReasoning)
  {
    NotBlank(NoReasoning, 0);
  }

  // ---------------------------------------------------------------------
  // Fallback parsing

  const FallbackSuggestions: seq<string> := ["응답 파싱 실패로 인한 기본값", "구조화된 응답 형식 개선 필요", "평가 기준 재검토 권장"]
  const EmptyReplyReasoning: string := "응답이 비어있어 평가 근거를 제공할 수 없습니다. 기본 점수를 적용합니다."
  const ReasoningLimit: nat := 500

  /** The captured numbers that lie on the score scale, in order. */
  function OnScale(xs: seq<real>): (r: seq<real>)
    ensures |r| <= |xs|
    ensures forall i :: 0 <= i < |r| ==> InRange(r[i])
    ensures forall i :: 0 <= i < |xs| && InRange(xs[i]) ==> xs[i] in r
    ensures forall x :: x in r ==> x in xs
  {
    if |xs| == 0 then []
    else (if InRange(xs[0]) then [xs[0]] else []) + OnScale(xs[1..])
  }

  /** The captured suggestion texts, stripped, without the blank ones. */
  function Cleaned(cues: seq<string>): (r: seq<string>)
    ensures forall i :: 0 <= i < |r| ==> r[i] != ""
  {
    if |cues| == 0 then []
    else (if Strip(cues[0]) != "" then [Strip(cues[0])] else []) + Cleaned(cues[1..])
  }

  function FallbackScore(captured: seq<real>): real {
    var scores := OnScale(captured);
    ValidateScore(VNum(if |scores| > 0 then Mean(scores) else NeutralScore))
  }

  function FallbackReasoning(response: string): string {
    var reasoning := if |response| > ReasoningLimit then response[..ReasoningLimit] + "..." else response;
    if IsBlank(reasoning) then EmptyReplyReasoning else reasoning
  }

  function FallbackSuggestionList(cues: seq<string>): seq<string> {
    var found := Cleaned(cues);
    var chosen := if |found| > 0 then found else FallbackSuggestions;
    if |chosen| > 3 then chosen[..3] else chosen
  }

  /** The five-field record both the fallback and the error path return. */
  function ReplyRecord(score: real, reasoning: string, suggestions: seq<Value>, projectType: string, tag: string): Dict {
    [("score", VNum(score)), ("reasoning", VStr(reasoning)), ("suggestions", VList(suggestions)),
     ("project_type", VStr(projectType)), ("evaluation_method", VStr(tag))]
  }

  lemma ReplyRecordFields(score: real, reasoning: string, suggestions: seq<Value>, projectType: string, tag: string)
    ensures var d := ReplyRecord(score, reasoning, suggestions, projectType, tag);
      Get(d, "score") == Some(VNum(score)) && Get(d, "reasoning") == Some(VStr(reasoning)) &&
      Get(d, "suggestions") == Some(VList(suggestions)) && Get(d, "project_type") == Some(VStr(projectType)) &&
      Get(d, "evaluation_method") == Some(VStr(tag))
  {
    ReplyRecordHead(score, reasoning, suggestions, projectType, tag);
    ReplyRecordTail(score, reasoning, suggestions, projectType, tag);
  }

  lemma ReplyRecordHead(score: real, reasoning: string, suggestions: seq<Value>, projectType: string, tag: string)
    ensures var d := ReplyRecord(score, reasoning, suggestions, projectType, tag);
      Get(d, "score") == Some(VNum(score)) && Get(d, "reasoning") == Some(VStr(reasoning)) &&
      Get(d, "suggestions") == Some(VList(suggestions))
  {
    var d := ReplyRecord(score, reasoning, suggestions, projectType, tag);
    GetIndex(d, 1);
    GetIndex(d, 2);
  }

  lemma ReplyRecordTail(score: real, reasoning: string, suggestions: seq<Value>, projectType: string, tag: string)
    ensures var d := ReplyRecord(score, reasoning, suggestions, projectType, tag);
      Get(d, "project_type") == Some(VStr(projectType)) && Get(d, "evaluation_method") == Some(VStr(tag))
  {
    var d := ReplyRecord(score, reasoning, suggestions, projectType, tag);
    GetIndex(d, 3);
    GetIndex(d, 4);
  }

  /** `fallback_parse_response`, given every number the five score
      patterns captured (in pattern order) and every text the three
      suggestion patterns captured. */
  function FallbackParse(response: string, projectType: string, captured: seq<real>, cues: seq<string>): Dict {
    ReplyRecord(FallbackScore(captured), FallbackReasoning(response), AsStrings(FallbackSuggestionList(cues)),
      projectType, FallbackMethod)
  }

  /** The fallback score is the mean of the captured numbers on the scale,
      or 5.0 when there are none; either way it is on the scale. */
  lemma FallbackScoreIsMean(captured: seq<real>)
    ensures InRange(FallbackScore(captured))
    ensures |OnScale(captured)| > 0 ==> FallbackScore(captured) == Mean(OnScale(captured))
    ensures (forall i :: 0 <= i < |captured| ==> !InRange(captured[i])) ==> FallbackScore(captured) == NeutralScore
  {
    var scores := OnScale(captured);
    if |scores| > 0 {
      MeanBetween(scores, MinScore, MaxScore);
      assert scores[0] in captured;
    }
  }

  /** "8", "8.0", "8점" and "8/10" in one reply all capture 8 and agree. */
  lemma RepeatedScoreIsThatScore(captured: seq<real>, x: real)
    requires |captured| > 0 && InRange(x)
    requires forall i :: 0 <= i < |captured| ==> captured[i] == x
    ensures FallbackScore(captured) == x
  {
    var scores := OnScale(captured);
    assert captured[0] in scores;
    forall i | 0 <= i < |scores| ensures scores[i] == x {
      assert scores[i] in captured;
    }
    MeanOfCopies(scores, x);
  }

  /** One to three non-empty suggestions: the captured ones when there
      are any, the three defaults otherwise. */
  lemma FallbackSuggestionShape(cues: seq<string>)
    ensures 1 <= |FallbackSuggestionList(cues)| <= 3
    ensures forall i :: 0 <= i < |FallbackSuggestionList(cues)| ==> FallbackSuggestionList(cues)[i] != ""
    ensures Cleaned(cues) == [] ==> FallbackSuggestionList(cues) == FallbackSuggestions
  {
    var found := Cleaned(cues);
    if |found| == 0 {
      assert forall i | 0 <= i < 3 :: FallbackSuggestions[i] != "";
    }
  }

  /** The reasoning is never blank, never longer than 503 characters, and
      is the reply itself when that is short and not blank. */
  lemma FallbackReasoningShape(response: string)
    ensures !IsBlank(FallbackReasoning(response))
    ensures |FallbackReasoning(response)| <= ReasoningLimit + 3 || FallbackReasoning(response) == EmptyReplyReasoning
    ensures !IsBlank(response) && |response| <= ReasoningLimit ==> FallbackReasoning(response) == response
  {
    NotBlank(EmptyReplyReasoning, 0);
    if |response| > ReasoningLimit {
      var cut := response[..ReasoningLimit] + "...";
      NotBlank(cut, |cut| - 1);
    }
  }

  const ErrorSuggestions: seq<Value> := [VStr("시스템 관리자에게 문의하세요"), VStr("네트워크 연결 상태를 확인하세요"), VStr("나중에 다시 시도해보세요")]

  /** `handle_llm_error` */
  function HandleLlmError(message: string, projectType: string): Dict {
    ReplyRecord(NeutralScore, "평가 중 오류 발생: " + message + ". 기본 점수를 제공합니다.", ErrorSuggestions,
      projectType, ErrorMethod)
  }

  /** The error reply: score 5.0, the message in the reasoning, the three
      fixed suggestions, the error method tag. */
  lemma ErrorFields(message: string, projectType: string)
    ensures var d := HandleLlmError(message, projectType);
      Get(d, "score") == Some(VNum(NeutralScore)) &&
      Get(d, "reasoning").Some? && Get(d, "reasoning").value.VStr? && Contains(Get(d, "reasoning").value.s, message) &&
      Get(d, "suggestions") == Some(VList(ErrorSuggestions)) &&
      Get(d, "project_type") == Some(VStr(projectType)) &&
      Get(d, "evaluation_method") == Some(VStr(ErrorMethod))
  {
    var head := "평가 중 오류 발생: ";
    var text := head + message + ". 기본 점수를 제공합니다.";
    ReplyRecordFields(NeutralScore, text, ErrorSuggestions, projectType, ErrorMethod);
    assert OccursAt(text, message, |head|) by {
      assert text[|head|..|head| + |message|] == message;
    }
  }

  /** The fallback reply's fields. */
  lemma FallbackFields(response: string, projectType: string, captured: seq<real>, cues: seq<string>)
    ensures var d := FallbackParse(response, projectType, captured, cues);
      Get(d, "score") == Some(VNum(FallbackScore(captured))) &&
      Get(d, "suggestions") == Some(VList(AsStrings(FallbackSuggestionList(cues)))) &&
      Get(d, "reasoning") == Some(VStr(FallbackReasoning(response))) &&
      Get(d, "project_type") == Some(VStr(projectType)) &&
      Get(d, "evaluation_method") == Some(VStr(FallbackMethod))
  {
    ReplyRecordFields(FallbackScore(captured), FallbackReasoning(response), AsStrings(FallbackSuggestionList(cues)),
      projectType, FallbackMethod);
  }
}
