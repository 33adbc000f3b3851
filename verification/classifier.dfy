/** The project-type classifier around its language-model call: the
    prompt text made from the analysis records, locating and decoding the
    JSON in the reply (with the simpler retries and the regular-expression
    fallback), and validating the classification. The model, the JSON
    decoder and the configured regular expressions are arguments. */
module Classifier {
  import opened Wrappers
  import opened Text
  import opened Values

  // ---------------------------------------------------------------------
  // Formatting the analysis records for the prompt
  // ---------------------------------------------------------------------

  /** The sections, in the order they are written, with their titles. */
  const Sections: seq<(string, string)> := [
    ("video_analysis", "## 비디오 분석 결과"),
    ("document_analysis", "## 문서 분석 결과"),
    ("presentation_analysis", "## 발표자료 분석 결과")
  ]

  /** An entry of a record is written when it is a non-blank string, a list
      or a dictionary; any other value is dropped. */
  predicate Kept(v: Value) {
    (v.VStr? && !IsBlank(v.s)) || v.VList? || v.VMap?
  }

  function EntryLine(key: string, v: Value): string {
    "**" + key + "**: " + Show(v)
  }

  function EntryLines(es: seq<(string, Value)>): (r: seq<string>)
    ensures |r| <= |es|
  {
    if |es| == 0 then []
    else (if Kept(es[0].1) then [EntryLine(es[0].0, es[0].1)] else []) + EntryLines(es[1..])
  }

  /** `line` is the line of some kept entry of `es`. */
  predicate FromKept(es: seq<(string, Value)>, line: string) {
    exists j :: 0 <= j < |es| && Kept(es[j].1) && line == EntryLine(es[j].0, es[j].1)
  }

  /** Every written line comes from a kept entry, and every kept entry is
      written. */
  lemma {:induction false} EntryLinesExact(es: seq<(string, Value)>)
    ensures forall line :: line in EntryLines(es) ==> FromKept(es, line)
    ensures forall j :: 0 <= j < |es| && Kept(es[j].1) ==> EntryLine(es[j].0, es[j].1) in EntryLines(es)
  {
    if |es| > 0 {
      EntryLinesExact(es[1..]);
      var head := if Kept(es[0].1) then [EntryLine(es[0].0, es[0].1)] else [];
      var rest := EntryLines(es[1..]);
      assert EntryLines(es) == head + rest;
      forall line | line in EntryLines(es) ensures FromKept(es, line) {
        if line in head {
          assert Kept(es[0].1) && line == EntryLine(es[0].0, es[0].1);
        } else {
          assert line in rest && FromKept(es[1..], line);
          var j :| 0 <= j < |es[1..]| && Kept(es[1..][j].1) && line == EntryLine(es[1..][j].0, es[1..][j].1);
          assert es[j + 1] == es[1..][j];
        }
      }
      forall j | 0 <= j < |es| && Kept(es[j].1)
        ensures EntryLine(es[j].0, es[j].1) in EntryLines(es)
      {
        if j > 0 {
          assert es[1..][j - 1] == es[j];
        }
      }
    }
  }

  /** The lines of one section: nothing for an empty record, otherwise the
      title, the record's lines and a blank line. */
  function SectionLines(title: string, v: Value): (r: seq<string>)
    ensures !Truthy(v) <==> r == []
    ensures Truthy(v) ==> r[0] == title && r[|r| - 1] == ""
  {
    if !Truthy(v) then []
    else
      var body := match v
        case VMap(es) => EntryLines(es)
        case VStr(s) => [s]
        case _ => [];
      [title] + body + [""]
  }

  /** `data.get(key)`, an empty mapping by default, for the section at `k`. */
  function SectionValue(data: Dict, k: int): Value
    requires 0 <= k < |Sections|
  {
    GetOr(data, Sections[k].0, VMap([]))
  }

  function FormatLines(data: Dict): seq<string> {
    SectionLines(Sections[0].1, SectionValue(data, 0))
    + SectionLines(Sections[1].1, SectionValue(data, 1))
    + SectionLines(Sections[2].1, SectionValue(data, 2))
  }

  /** `_format_analysis_data` */
  function FormatAnalysisData(data: Dict): string {
    Join("\n", FormatLines(data))
  }

  lemma {:induction false} JoinStartsWithFirst(sep: string, parts: seq<string>)
    requires |parts| > 0
    ensures |Join(sep, parts)| >= |parts[0]|
    ensures Join(sep, parts)[..|parts[0]|] == parts[0]
  {
  }

  /** The prompt text is empty exactly when every section record is empty
      or absent; otherwise it opens with the title of the first non-empty
      section, in the order video, document, presentation. */
  lemma FormatOpensWithFirstSection(data: Dict)
    ensures FormatAnalysisData(data) == "" <==>
      !Truthy(SectionValue(data, 0)) && !Truthy(SectionValue(data, 1)) && !Truthy(SectionValue(data, 2))
    ensures Truthy(SectionValue(data, 0)) ==> StartsWith(FormatAnalysisData(data), Sections[0].1)
    ensures !Truthy(SectionValue(data, 0)) && Truthy(SectionValue(data, 1)) ==>
      StartsWith(FormatAnalysisData(data), Sections[1].1)
  {
    SectionTitles();
    ThreeSections(Sections[0].1, Sections[1].1, Sections[2].1,
      SectionValue(data, 0), SectionValue(data, 1), SectionValue(data, 2));
  }

  lemma SectionTitles()
    ensures |Sections| == 3
    ensures |Sections[0].1| > 0 && |Sections[1].1| > 0 && |Sections[2].1| > 0
  {
  }

  /** Three sections joined by newlines: empty exactly when all three are,
      otherwise opening with the first present section's title. */
  lemma ThreeSections(t0: string, t1: string, t2: string, v0: Value, v1: Value, v2: Value)
    requires |t0| > 0 && |t1| > 0 && |t2| > 0
    ensures var text := Join("\n", SectionLines(t0, v0) + SectionLines(t1, v1) + SectionLines(t2, v2));
      && (text == "" <==> !Truthy(v0) && !Truthy(v1) && !Truthy(v2))
      && (Truthy(v0) ==> StartsWith(text, t0))
      && (!Truthy(v0) && Truthy(v1) ==> StartsWith(text, t1))
  {
    var a := SectionLines(t0, v0);
    var b := SectionLines(t1, v1);
    var c := SectionLines(t2, v2);
    var lines := a + b + c;
    if |lines| > 0 {
      JoinStartsWithFirst("\n", lines);
      if |a| > 0 {
        assert lines[0] == t0;
      } else if |b| > 0 {
        assert lines[0] == t1;
      } else {
        assert lines[0] == t2;
      }
    }
  }

  // ---------------------------------------------------------------------
  // Locating the JSON in a reply
  // ---------------------------------------------------------------------

  const Fence: string := "```"
  const JsonFence: string := "```json"

  /** Where the object of a "```json" fence opening at `i` starts: after
      the optional whitespace. */
  function ObjectStart(s: string, i: nat): nat
    requires i + |JsonFence| <= |s|
  {
    SkipSpace(s, i + |JsonFence|)
  }

  /** A "```json" fence at `i` followed, after whitespace, by an opening brace. */
  predicate Opens(s: string, i: nat) {
    OccursAt(s, JsonFence, i) && ObjectStart(s, i) < |s| && s[ObjectStart(s, i)] == OpenBrace
  }

  /** A closing brace at `e` followed, after whitespace, by a closing fence. */
  predicate Closes(s: string, e: nat) {
    e < |s| && s[e] == CloseBrace && OccursAt(s, Fence, SkipSpace(s, e + 1))
  }

  /** The first closing brace at or after `from`: the lazy `.*?`. */
  function FirstClose(s: string, from: nat): (r: Option<nat>)
    ensures r.Some? ==> from <= r.value && Closes(s, r.value)
    ensures r.Some? ==> forall e :: from <= e < r.value ==> !Closes(s, e)
    ensures r.None? ==> forall e :: from <= e ==> !Closes(s, e)
    decreases |s| - from
  {
    if from >= |s| then None
    else if Closes(s, from) then Some(from)
    else FirstClose(s, from + 1)
  }

  /** A fenced block matches at `i`. */
  predicate FencedAt(s: string, i: nat) {
    Opens(s, i) && FirstClose(s, ObjectStart(s, i) + 1).Some?
  }

  /** Where the leftmost fenced match at or after `from` starts: what
      `re.search` finds for the fenced-JSON pattern with its lazy object
      group, with DOTALL. */
  function FencedMatch(s: string, from: nat): (r: Option<nat>)
    ensures r.Some? ==> from <= r.value && FencedAt(s, r.value)
    ensures r.Some? ==> forall i :: from <= i < r.value ==> !FencedAt(s, i)
    ensures r.None? ==> forall i :: from <= i ==> !FencedAt(s, i)
    decreases |s| - from
  {
    if from + |JsonFence| > |s| then None
    else if FencedAt(s, from) then Some(from)
    else FencedMatch(s, from + 1)
  }

  /** The object of the leftmost fenced block, braces included: from the
      opening brace after the fence to the first closing brace followed by
      a closing fence. */
  function FencedBlock(s: string): (r: Option<string>)
    ensures r.Some? ==> Braced(r.value)
    ensures r.None? <==> forall i :: !FencedAt(s, i)
  {
    match FencedMatch(s, 0)
    case None => None
    case Some(i) =>
      var j := ObjectStart(s, i);
      var e := FirstClose(s, j + 1).value;
      Some(s[j..e + 1])
  }

  /** `t` is the object of the fenced match at `m`: from its opening
      brace to the first closing brace followed by a closing fence. */
  predicate FencedSlice(s: string, m: Option<nat>, t: string) {
    m.Some? && FencedAt(s, m.value) &&
    var j := ObjectStart(s, m.value);
    t == s[j..FirstClose(s, j + 1).value + 1]
  }

  /** The fenced block is the object of the leftmost fenced match. */
  lemma FencedBlockSlice(s: string)
    requires FencedBlock(s).Some?
    ensures FencedSlice(s, FencedMatch(s, 0), FencedBlock(s).value)
  {
  }

  /** The text the first parsing attempt decodes: the fenced block, else
      the greedy brace span. */
  function JsonCandidate(s: string): (r: Option<string>)
    ensures FencedBlock(s).Some? ==> r == FencedBlock(s)
    ensures FencedBlock(s).None? ==> r == BraceSpan(s)
    ensures r.Some? ==> Braced(r.value)
  {
    if FencedBlock(s).Some? then FencedBlock(s) else BraceSpan(s)
  }

  // ---------------------------------------------------------------------
  // Parsing a reply
  // ---------------------------------------------------------------------

  /** `json.loads`: a value, or `None` for a decode error. */
  type Decoder = string -> Option<Value>

  /** The reply to the `k`-th simpler retry prompt, or the error the call
      raised. */
  type RetryReplies = nat -> Result<string>

  const NumericFields: seq<string> := ["confidence", "painkiller_score", "vitamin_score"]
  const TotalFailure: string := "응답 파싱 완전 실패"

  /** `_extract_with_regex`: each configured pattern's capture (or `None`
      when it does not match) in the pattern table's order; the three
      numeric fields go through `float`, and one that does not convert
      fails the whole extraction. A field is present exactly when its
      pattern matched, and (the table's fields being distinct) holds its
      converted capture: a float for the three numeric fields, the
      captured text for the others. */
  function ExtractWithRegex(captures: seq<(string, Option<string>)>): (r: Result<Dict>)
    ensures r.Failure? <==> exists i :: 0 <= i < |captures| && Unconvertible(captures[i])
    ensures r.Failure? ==> r.error == TotalFailure
    ensures r.Success? ==> NumbersOnly(r.value)
    ensures r.Success? ==> forall f :: HasKey(r.value, f) <==> Matched(captures, f)
    ensures r.Success? && DistinctFields(captures) ==>
      forall i :: 0 <= i < |captures| && captures[i].1.Some? ==>
        Get(r.value, captures[i].0) == Converted(captures[i].0, captures[i].1.value)
    decreases |captures|
  {
    if |captures| == 0 then Success([])
    else
      var n := |captures| - 1;
      var front := captures[..n];
      UnconvertibleSplit(captures);
      match ExtractWithRegex(front)
      case Failure(e) => Failure(e)
      case Success(d) =>
        var field := captures[n].0;
        var captured := captures[n].1;
        if captured.None? then ExtractStep(captures, d, d); Success(d)
        else if field in NumericFields then
          match ParseFloat(captured.value)
          case None => Failure(TotalFailure)
          case Some(x) =>
            PutKeepsNumbers(d, field, VNum(x));
            ExtractStep(captures, d, Put(d, field, VNum(x)));
            Success(Put(d, field, VNum(x)))
        else
          PutKeepsNumbers(d, field, VStr(captured.value));
          ExtractStep(captures, d, Put(d, field, VStr(captured.value)));
          Success(Put(d, field, VStr(captured.value)))
  }

  /** One more capture: a matched pattern stores its converted capture,
      an unmatched one leaves the mapping alone. */
  lemma ExtractStep(captures: seq<(string, Option<string>)>, d: Dict, d2: Dict)
    requires |captures| > 0
    requires var n := |captures| - 1;
      && (forall f :: HasKey(d, f) <==> Matched(captures[..n], f))
      && (DistinctFields(captures[..n]) ==>
            forall i :: 0 <= i < n && captures[..n][i].1.Some? ==>
              Get(d, captures[..n][i].0) == Converted(captures[..n][i].0, captures[..n][i].1.value))
    requires var c := captures[|captures| - 1];
      if c.1.None? then d2 == d
      else Converted(c.0, c.1.value).Some? && d2 == Put(d, c.0, Converted(c.0, c.1.value).value)
    ensures forall f :: HasKey(d2, f) <==> Matched(captures, f)
    ensures DistinctFields(captures) ==>
      forall i :: 0 <= i < |captures| && captures[i].1.Some? ==>
        Get(d2, captures[i].0) == Converted(captures[i].0, captures[i].1.value)
  {
    var n := |captures| - 1;
    var c := captures[n];
    forall f ensures HasKey(d2, f) <==> Matched(captures, f) {
      MatchedSplit(captures, f);
      if c.1.Some? {
        PutHasKey(d, c.0, Converted(c.0, c.1.value).value, f);
      }
    }
    if DistinctFields(captures) {
      StoredSplit(captures, d, d2);
    }
  }

  lemma MatchedSplit(captures: seq<(string, Option<string>)>, f: string)
    requires |captures| > 0
    ensures var n := |captures| - 1;
      Matched(captures, f) <==> Matched(captures[..n], f) || (captures[n].0 == f && captures[n].1.Some?)
  {
    var n := |captures| - 1;
    var front := captures[..n];
    if Matched(captures, f) {
      var i :| 0 <= i < |captures| && captures[i].0 == f && captures[i].1.Some?;
      if i < n {
        assert front[i] == captures[i];
      }
    }
    if Matched(front, f) {
      var i :| 0 <= i < n && front[i].0 == f && front[i].1.Some?;
      assert captures[i] == front[i];
    }
  }

  lemma PutHasKey(d: Dict, k: string, v: Value, f: string)
    ensures HasKey(Put(d, k, v), f) <==> HasKey(d, f) || f == k
  {
    assert Get(Put(d, k, v), f).Some? <==> Get(d, f).Some? || f == k;
  }

  lemma StoredSplit(captures: seq<(string, Option<string>)>, d: Dict, d2: Dict)
    requires |captures| > 0 && DistinctFields(captures)
    requires var n := |captures| - 1;
      DistinctFields(captures[..n]) ==>
        forall i :: 0 <= i < n && captures[..n][i].1.Some? ==>
          Get(d, captures[..n][i].0) == Converted(captures[..n][i].0, captures[..n][i].1.value)
    requires var c := captures[|captures| - 1];
      if c.1.None? then d2 == d
      else Converted(c.0, c.1.value).Some? && d2 == Put(d, c.0, Converted(c.0, c.1.value).value)
    ensures forall i :: 0 <= i < |captures| && captures[i].1.Some? ==>
      Get(d2, captures[i].0) == Converted(captures[i].0, captures[i].1.value)
  {
    var n := |captures| - 1;
    var front := captures[..n];
    var c := captures[n];
    assert DistinctFields(front) by {
      forall i, j | 0 <= i < j < n ensures front[i].0 != front[j].0 {
        assert front[i] == captures[i] && front[j] == captures[j];
      }
    }
    forall i | 0 <= i < |captures| && captures[i].1.Some?
      ensures Get(d2, captures[i].0) == Converted(captures[i].0, captures[i].1.value)
    {
      if i < n {
        assert front[i] == captures[i];
        assert captures[i].0 != c.0;
      }
    }
  }

  /** Some pattern for `f` matched. */
  predicate Matched(captures: seq<(string, Option<string>)>, f: string) {
    exists i :: 0 <= i < |captures| && captures[i].0 == f && captures[i].1.Some?
  }

  /** No field has two patterns, as in the pattern table, a mapping. */
  predicate DistinctFields(captures: seq<(string, Option<string>)>) {
    forall i, j :: 0 <= i < j < |captures| ==> captures[i].0 != captures[j].0
  }

  /** What a capture is stored as: `float` of it for a numeric field
      (nothing when `float` rejects it), the text itself otherwise. */
  function Converted(field: string, text: string): (r: Option<Value>)
    ensures field !in NumericFields ==> r == Some(VStr(text))
    ensures field in NumericFields ==> (r.Some? <==> ParseFloat(text).Some?)
    ensures field in NumericFields && r.Some? ==> r == Some(VNum(ParseFloat(text).value))
  {
    if field !in NumericFields then Some(VStr(text))
    else match ParseFloat(text)
      case Some(x) => Some(VNum(x))
      case None => None
  }

  /** Every numeric field present holds a number. */
  predicate NumbersOnly(d: Dict) {
    forall k :: k in NumericFields && HasKey(d, k) ==> Get(d, k).value.VNum?
  }

  lemma PutKeepsNumbers(d: Dict, field: string, v: Value)
    requires NumbersOnly(d)
    requires field in NumericFields ==> v.VNum?
    ensures NumbersOnly(Put(d, field, v))
  {
  }

  lemma UnconvertibleSplit(captures: seq<(string, Option<string>)>)
    requires |captures| > 0
    ensures var n := |captures| - 1;
      (exists i :: 0 <= i < |captures| && Unconvertible(captures[i])) <==>
      (exists i :: 0 <= i < n && Unconvertible(captures[..n][i])) || Unconvertible(captures[n])
  {
    var n := |captures| - 1;
    assert forall i :: 0 <= i < n ==> captures[..n][i] == captures[i];
  }

  /** A capture for a numeric field that `float` rejects. */
  predicate Unconvertible(c: (string, Option<string>)) {
    c.0 in NumericFields && c.1.Some? && ParseFloat(c.1.value).None?
  }

  /** The settings the classifier reads from its configuration files. */
  datatype Settings = Settings(
    confidenceThreshold: real,  // loaded, never consulted
    simplerRetry: bool,         // `use_simpler_prompt_on_retry`, true by default
    maxRetries: nat,            // `max_parse_retries`, 2 by default
    raiseOnFailure: bool)       // `raise_on_failure`, true by default

  /** The `k`-th simpler retry is answered with text whose brace span
      decodes. */
  predicate RetryDecodes(decode: Decoder, replies: RetryReplies, k: nat) {
    replies(k).Success? && BraceSpan(replies(k).value).Some?
    && decode(BraceSpan(replies(k).value).value).Some?
  }

  /** The first of the retries `k`, ..., `max - 1` that decodes: a call
      that raises, a reply without braces and a reply that does not
      decode all move on to the next retry. */
  function FirstDecodingRetry(decode: Decoder, replies: RetryReplies, k: nat, max: nat): (r: Option<nat>)
    ensures r.Some? ==> k <= r.value < max && RetryDecodes(decode, replies, r.value)
    ensures r.Some? ==> forall j :: k <= j < r.value ==> !RetryDecodes(decode, replies, j)
    ensures r.None? ==> forall j :: k <= j < max ==> !RetryDecodes(decode, replies, j)
    decreases max - k
  {
    if k >= max then None
    else if RetryDecodes(decode, replies, k) then Some(k)
    else FirstDecodingRetry(decode, replies, k + 1, max)
  }

  /** The configured patterns applied to a text: each field with its
      capture, or `None` where the pattern does not match. */
  type Patterns = string -> seq<(string, Option<string>)>

  /** `_parse_llm_response`: the fenced block or brace span of the reply,
      decoded; failing that, the simpler retries when they are enabled;
      failing those, the pattern extraction on the original reply. */
  function ParseResponse(st: Settings, response: string, decode: Decoder, replies: RetryReplies, patterns: Patterns): (r: Result<Value>)
    ensures JsonCandidate(response).Some? && decode(JsonCandidate(response).value).Some? ==>
      r == Success(decode(JsonCandidate(response).value).value)
    ensures r.Failure? ==> r.error == TotalFailure
  {
    var first := JsonCandidate(response);
    if first.Some? && decode(first.value).Some? then Success(decode(first.value).value)
    else
      var retry := if st.simplerRetry then FirstDecodingRetry(decode, replies, 0, st.maxRetries) else None;
      if retry.Some? then RetryValue(decode, replies, retry.value)
      else PatternFallback(patterns(response))
  }

  /** The object a decoding retry produced. */
  function RetryValue(decode: Decoder, replies: RetryReplies, k: nat): Result<Value>
    requires RetryDecodes(decode, replies, k)
  {
    Success(decode(BraceSpan(replies(k).value).value).value)
  }

  /** `_extract_with_regex` as the last resort, its fields as a mapping. */
  function PatternFallback(captures: seq<(string, Option<string>)>): (r: Result<Value>)
    ensures r.Success? <==> !(exists i :: 0 <= i < |captures| && Unconvertible(captures[i]))
    ensures r.Failure? ==> r.error == TotalFailure
    ensures r.Success? ==> r.value.VMap?
    ensures r.Success? ==> forall f :: HasKey(r.value.entries, f) <==> Matched(captures, f)
    ensures r.Success? && DistinctFields(captures) ==>
      forall i :: 0 <= i < |captures| && captures[i].1.Some? ==>
        Get(r.value.entries, captures[i].0) == Converted(captures[i].0, captures[i].1.value)
  {
    match ExtractWithRegex(captures)
    case Failure(e) => Failure(e)
    case Success(d) => Success(VMap(d))
  }

  /** Which way a reply was parsed. */
  lemma ParseResponseRoutes(st: Settings, response: string, decode: Decoder, replies: RetryReplies, patterns: Patterns)
    requires JsonCandidate(response).None? || decode(JsonCandidate(response).value).None?
    ensures !st.simplerRetry ==>
      ParseResponse(st, response, decode, replies, patterns) == PatternFallback(patterns(response))
    ensures st.simplerRetry && st.maxRetries > 0 && RetryDecodes(decode, replies, 0) ==>
      ParseResponse(st, response, decode, replies, patterns) == RetryValue(decode, replies, 0)
    ensures st.simplerRetry && (forall j :: 0 <= j < st.maxRetries ==> !RetryDecodes(decode, replies, j)) ==>
      ParseResponse(st, response, decode, replies, patterns) == PatternFallback(patterns(response))
  {
  }

  // ---------------------------------------------------------------------
  // Validating a classification
  // ---------------------------------------------------------------------

  const ValidTypes: seq<string> := ["painkiller", "vitamin", "balanced"]
  const RequiredFields: seq<string> := ["project_type", "confidence", "painkiller_score", "vitamin_score", "reasoning"]
  const InvalidTypeWarning: string := "유효하지 않은 프로젝트 유형이 감지되어 Balanced로 설정되었습니다."

  datatype Classification = Classification(
    projectType: string,
    confidence: real,
    painkillerScore: real,
    vitaminScore: real,
    reasoning: Value,
    warning: Option<string>)

  /** The parsed result is a mapping holding every required field. */
  predicate Complete(parsed: Value) {
    && parsed.VMap?
    && HasKey(parsed.entries, "project_type")
    && HasKey(parsed.entries, "confidence")
    && HasKey(parsed.entries, "painkiller_score")
    && HasKey(parsed.entries, "vitamin_score")
    && HasKey(parsed.entries, "reasoning")
  }

  const MissingLead: string := "LLM 응답에서 필수 필드가 누락되었습니다: "

  /** The fields of `fields` that `d` lacks, in order. */
  function MissingFields(d: Dict, fields: seq<string>): (r: seq<string>)
    ensures forall f :: f in r <==> f in fields && !HasKey(d, f)
  {
    if |fields| == 0 then []
    else (if HasKey(d, fields[0]) then [] else [fields[0]]) + MissingFields(d, fields[1..])
  }

  /** `str()` of a list of strings without quotes or backslashes:
      "['a', 'b']". */
  function QuotedList(names: seq<string>): string {
    "[" + Join(", ", seq(|names|, i requires 0 <= i < |names| => "'" + names[i] + "'")) + "]"
  }

  /** `Complete` is the check over `RequiredFields`. */
  lemma CompleteMeansRequired(parsed: Value)
    requires parsed.VMap?
    ensures Complete(parsed) <==> forall f :: f in RequiredFields ==> HasKey(parsed.entries, f)
  {
  }

  /** The type a lowered `project_type` settles on, and the warning that
      goes with replacing an unknown one. */
  function Canonical(raw: string): (r: (string, Option<string>))
    ensures r.0 in ValidTypes
    ensures r.0 == (if raw in ValidTypes then raw else "balanced")
    ensures r.1.None? <==> raw in ValidTypes
  {
    if raw in ValidTypes then (raw, None) else ("balanced", Some(InvalidTypeWarning))
  }

  /** The confidence forced into [0, 1]. */
  function UnitClamp(c: real): (r: real)
    ensures 0.0 <= r <= 1.0
    ensures 0.0 <= c <= 1.0 ==> r == c
  {
    if c < 0.0 then 0.0 else if c > 1.0 then 1.0 else c
  }

  /** Both scores divided by their sum when it is positive: they then sum
      to 1 and keep their ratio; two zeros stay zeros. */
  function Normalized(p: real, v: real): (r: (real, real))
    requires p >= 0.0 && v >= 0.0
    ensures r.0 >= 0.0 && r.1 >= 0.0
    ensures p + v > 0.0 ==> r.0 + r.1 == 1.0 && r.0 * v == r.1 * p
    ensures p + v == 0.0 ==> r == (0.0, 0.0)
  {
    var total := p + v;
    if total > 0.0 then
      assert p / total + v / total == (p + v) / total;
      assert (p / total) * v == (p * v) / total == (v / total) * p;
      (p / total, v / total)
    else (p, v)
  }

  function NonNegative(x: real): (r: real)
    ensures r >= 0.0 && (x >= 0.0 ==> r == x)
  {
    if x < 0.0 then 0.0 else x
  }

  /** `_validate_classification_result`; `Failure` stands for the
      exceptions it raises: a missing field, a type that is not a string
      (`.lower()`), a number `float` rejects. The confidence threshold is
      not consulted. */
  function Validate(parsed: Value): (r: Result<Classification>)
    ensures r.Success? <==> (
      && Complete(parsed)
      && Get(parsed.entries, "project_type").value.VStr?
      && ToFloat(Get(parsed.entries, "confidence").value).Some?
      && ToFloat(Get(parsed.entries, "painkiller_score").value).Some?
      && ToFloat(Get(parsed.entries, "vitamin_score").value).Some?)
    ensures r.Success? ==>
      var raw := Lower(Get(parsed.entries, "project_type").value.s);
      && r.value.projectType in ValidTypes
      && r.value.projectType == (if raw in ValidTypes then raw else "balanced")
      && (r.value.warning.None? <==> raw in ValidTypes)
    ensures r.Success? ==> 0.0 <= r.value.confidence <= 1.0
    ensures r.Success? ==> r.value.painkillerScore >= 0.0 && r.value.vitaminScore >= 0.0
    ensures r.Success? ==>
      (r.value.painkillerScore + r.value.vitaminScore == 1.0) ||
      (r.value.painkillerScore == 0.0 && r.value.vitaminScore == 0.0)
    ensures parsed.VMap? && !Complete(parsed) ==>
      r == Failure(MissingLead + QuotedList(MissingFields(parsed.entries, RequiredFields)))
  {
    if !parsed.VMap? then Failure("ValueError: missing required fields")
    else if !Complete(parsed) then Failure(MissingLead + QuotedList(MissingFields(parsed.entries, RequiredFields)))
    else
      var d := parsed.entries;
      var pt := Get(d, "project_type").value;
      if !pt.VStr? then Failure("AttributeError: 'lower'")
      else
        var kind := Canonical(Lower(pt.s));
        var c := ToFloat(Get(d, "confidence").value);
        var p := ToFloat(Get(d, "painkiller_score").value);
        var v := ToFloat(Get(d, "vitamin_score").value);
        if c.None? || p.None? || v.None? then Failure("ValueError: could not convert to float")
        else
          var scores := Normalized(NonNegative(p.value), NonNegative(v.value));
          Success(Classification(kind.0, UnitClamp(c.value), scores.0, scores.1,
                                 Get(d, "reasoning").value, kind.1))
  }

  /** A classification written back as the dictionary `classify`
      returns. */
  function AsDict(c: Classification): Dict {
    [("project_type", VStr(c.projectType)),
     ("confidence", VNum(c.confidence)),
     ("painkiller_score", VNum(c.painkillerScore)),
     ("vitamin_score", VNum(c.vitaminScore)),
     ("reasoning", c.reasoning),
     ("warning_message", if c.warning.Some? then VStr(c.warning.value) else VNone)]
  }

  lemma ValidTypesLower(t: string)
    requires t in ValidTypes
    ensures Lower(t) == t
  {
    LowerKeepsLowercase(t);
  }

  /** Each of the five fields `Validate` reads is found where `AsDict`
      puts it: the keys differ in length, hence from one another. */
  lemma AsDictLookup(c: Classification, i: nat)
    requires i < 5
    ensures Get(AsDict(c), AsDict(c)[i].0) == Some(AsDict(c)[i].1)
  {
    var d := AsDict(c);
    var lengths := [12, 10, 16, 13, 9, 15];
    assert forall j :: 0 <= j < 6 ==> |d[j].0| == lengths[j];
    GetIndex(d, i);
  }

  /** Validation is idempotent: validating a validated classification
      gives it back, now without a warning, since its type is valid. */
  lemma ValidateIdempotent(parsed: Value)
    requires Validate(parsed).Success?
    ensures Validate(VMap(AsDict(Validate(parsed).value))) == Success(Validate(parsed).value.(warning := None))
  {
    ValidateAsDict(Validate(parsed).value);
  }

  /** What `Validate` promises is exactly what lets a classification pass
      through it unchanged (up to the warning). */
  predicate Validated(c: Classification) {
    && c.projectType in ValidTypes
    && 0.0 <= c.confidence <= 1.0
    && c.painkillerScore >= 0.0 && c.vitaminScore >= 0.0
    && (c.painkillerScore + c.vitaminScore == 1.0 || (c.painkillerScore == 0.0 && c.vitaminScore == 0.0))
  }

  lemma ValidateAsDict(c: Classification)
    requires Validated(c)
    ensures Validate(VMap(AsDict(c))) == Success(c.(warning := None))
  {
    var d := AsDict(c);
    assert Get(d, "project_type") == Some(VStr(c.projectType)) by { AsDictLookup(c, 0); }
    assert Get(d, "confidence") == Some(VNum(c.confidence)) by { AsDictLookup(c, 1); }
    assert Get(d, "painkiller_score") == Some(VNum(c.painkillerScore)) by { AsDictLookup(c, 2); }
    assert Get(d, "vitamin_score") == Some(VNum(c.vitaminScore)) by { AsDictLookup(c, 3); }
    assert Get(d, "reasoning") == Some(c.reasoning) by { AsDictLookup(c, 4); }
    ValidateOfLookups(d, c);
  }

  /** Any mapping whose five fields hold a validated classification's
      values validates to that classification. */
  lemma ValidateOfLookups(d: Dict, c: Classification)
    requires Validated(c)
    requires Get(d, "project_type") == Some(VStr(c.projectType))
    requires Get(d, "confidence") == Some(VNum(c.confidence))
    requires Get(d, "painkiller_score") == Some(VNum(c.painkillerScore))
    requires Get(d, "vitamin_score") == Some(VNum(c.vitaminScore))
    requires Get(d, "reasoning") == Some(c.reasoning)
    ensures Validate(VMap(d)) == Success(c.(warning := None))
  {
    assert Complete(VMap(d));
    ValidateFields(d, c.projectType, c.confidence, c.painkillerScore, c.vitaminScore, c.reasoning);
    ValidTypesLower(c.projectType);
    assert Canonical(c.projectType) == (c.projectType, None);
    assert UnitClamp(c.confidence) == c.confidence;
    NormalizedFixed(c.painkillerScore, c.vitaminScore);
  }

  /** A complete mapping with a string type and numeric scores validates
      to the canonical type, the clamped confidence and the normalised
      scores. */
  lemma ValidateFields(d: Dict, t: string, conf: real, p: real, v: real, reasoning: Value)
    requires Complete(VMap(d))
    requires Get(d, "project_type") == Some(VStr(t))
    requires Get(d, "confidence") == Some(VNum(conf))
    requires Get(d, "painkiller_score") == Some(VNum(p))
    requires Get(d, "vitamin_score") == Some(VNum(v))
    requires Get(d, "reasoning") == Some(reasoning)
    ensures var kind := Canonical(Lower(t));
      var scores := Normalized(NonNegative(p), NonNegative(v));
      Validate(VMap(d)) == Success(Classification(kind.0, UnitClamp(conf), scores.0, scores.1, reasoning, kind.1))
  {
  }

  /** Scores that already sum to 1, or are both 0, are normalised to
      themselves. */
  lemma NormalizedFixed(p: real, v: real)
    requires p >= 0.0 && v >= 0.0
    requires p + v == 1.0 || (p == 0.0 && v == 0.0)
    ensures Normalized(NonNegative(p), NonNegative(v)) == (p, v)
  {
    if p + v > 0.0 {
      assert p / (p + v) == p / 1.0 == p;
      assert v / (p + v) == v / 1.0 == v;
    }
  }

  // ---------------------------------------------------------------------
  // Classifying
  // ---------------------------------------------------------------------

  /** The model, given the formatted analysis text; `Failure` is the
      exception the call raises. */
  type Model = string -> Result<string>

  const FailureLead: string := "프로젝트 분류 실패: "

  /** The record `_handle_classification_failure` builds in legacy
      mode. */
  function LegacyRecord(error: string): (c: Classification)
    ensures c.projectType == "balanced" && c.painkillerScore + c.vitaminScore == 1.0
  {
    Classification("balanced", 0.0, 0.5, 0.5, VStr("LLM 분류 실패로 인한 임시 기본값 (수정 필요)"),
                   Some("분류 실패: " + error))
  }

  /** `_handle_classification_failure`: a `RuntimeError` when failures
      raise, otherwise the legacy record. */
  function HandleFailure(st: Settings, error: string): (r: Result<Classification>)
    ensures st.raiseOnFailure <==> r.Failure?
    ensures r.Failure? ==> r.error == FailureLead + error
  {
    if st.raiseOnFailure then Failure(FailureLead + error) else Success(LegacyRecord(error))
  }

  /** The model call, the parse and the validation; `Failure` is whatever
      exception one of them raised. */
  function Attempt(data: Dict, llm: Model, decode: Decoder, replies: RetryReplies, patterns: Patterns, st: Settings): (r: Result<Classification>)
    ensures llm(FormatAnalysisData(data)).Failure? ==> r == Failure(llm(FormatAnalysisData(data)).error)
    ensures llm(FormatAnalysisData(data)).Success? ==>
      var parsed := ParseResponse(st, llm(FormatAnalysisData(data)).value, decode, replies, patterns);
      && (parsed.Failure? ==> r == Failure(TotalFailure))
      && (parsed.Success? ==> r == Validate(parsed.value))
    ensures r.Success? ==> r.value.projectType in ValidTypes && 0.0 <= r.value.confidence <= 1.0
  {
    match llm(FormatAnalysisData(data))
    case Failure(e) => Failure(e)
    case Success(reply) =>
      match ParseResponse(st, reply, decode, replies, patterns)
      case Failure(e) => Failure(e)
      case Success(v) => Validate(v)
  }

  /** `classify` as written: on failure it calls the handler but does not
      return what the handler returns, so in legacy mode the result is
      `None`. */
  function Classify(st: Settings, data: Dict, llm: Model, decode: Decoder, replies: RetryReplies, patterns: Patterns): (r: Result<Option<Classification>>)
    ensures r.Success? && r.value.Some? <==> Attempt(data, llm, decode, replies, patterns, st).Success?
    ensures r.Failure? <==> st.raiseOnFailure && Attempt(data, llm, decode, replies, patterns, st).Failure?
    ensures r.Failure? ==> StartsWith(r.error, FailureLead)
    ensures r.Success? && r.value.Some? ==> Success(r.value.value) == Attempt(data, llm, decode, replies, patterns, st)
    ensures r.Failure? ==> r.error == FailureLead + Attempt(data, llm, decode, replies, patterns, st).error
  {
    match Attempt(data, llm, decode, replies, patterns, st)
    case Success(c) => Success(Some(c))
    case Failure(e) =>
      match HandleFailure(st, e)
      case Failure(m) => assert m[..|FailureLead|] == FailureLead; Failure(m)
      case Success(_) => Success(None)
  }

  /** `classify` with the evidently intended legacy behaviour: the
      handler's record is returned. */
  function ClassifyReturningDefault(st: Settings, data: Dict, llm: Model, decode: Decoder, replies: RetryReplies, patterns: Patterns): (r: Result<Classification>)
    ensures r.Failure? <==> st.raiseOnFailure && Attempt(data, llm, decode, replies, patterns, st).Failure?
    ensures r.Success? ==> r.value.projectType in ValidTypes
    ensures !st.raiseOnFailure ==> r.Success?
    ensures Attempt(data, llm, decode, replies, patterns, st).Success? ==>
      r == Attempt(data, llm, decode, replies, patterns, st)
    ensures Attempt(data, llm, decode, replies, patterns, st).Failure? && !st.raiseOnFailure ==>
      r == Success(LegacyRecord(Attempt(data, llm, decode, replies, patterns, st).error))
  {
    match Attempt(data, llm, decode, replies, patterns, st)
    case Success(c) => Success(c)
    case Failure(e) => HandleFailure(st, e)
  }

  /** In legacy mode a failing classification yields no result at all,
      where the handler meant to supply the balanced default; with
      failures raising, the two definitions agree. */
  lemma LegacyDefaultIsDiscarded(st: Settings, data: Dict, llm: Model, decode: Decoder, replies: RetryReplies, patterns: Patterns)
    requires !st.raiseOnFailure
    requires llm(FormatAnalysisData(data)).Failure?
    ensures Classify(st, data, llm, decode, replies, patterns) == Success(None)
    ensures ClassifyReturningDefault(st, data, llm, decode, replies, patterns) ==
      Success(LegacyRecord(llm(FormatAnalysisData(data)).error))
  {
  }

  /** A reply whose JSON candidate decodes is classified as the validated
      decoded object; one whose object fails validation is a failure that
      raises or, in legacy mode, yields no result. */
  lemma ClassifiesDecodedReply(st: Settings, data: Dict, llm: Model, decode: Decoder, replies: RetryReplies, patterns: Patterns)
    requires llm(FormatAnalysisData(data)).Success?
    requires var reply := llm(FormatAnalysisData(data)).value;
      JsonCandidate(reply).Some? && decode(JsonCandidate(reply).value).Some?
    ensures var v := decode(JsonCandidate(llm(FormatAnalysisData(data)).value).value).value;
      && (Validate(v).Success? ==> Classify(st, data, llm, decode, replies, patterns) == Success(Some(Validate(v).value)))
      && (Validate(v).Failure? ==> Classify(st, data, llm, decode, replies, patterns).Failure? == st.raiseOnFailure)
      && (Validate(v).Failure? && !st.raiseOnFailure ==> Classify(st, data, llm, decode, replies, patterns) == Success(None))
  {
  }

  lemma RaisingModesAgree(st: Settings, data: Dict, llm: Model, decode: Decoder, replies: RetryReplies, patterns: Patterns)
    requires st.raiseOnFailure
    ensures Classify(st, data, llm, decode, replies, patterns) ==
      match ClassifyReturningDefault(st, data, llm, decode, replies, patterns)
      case Success(c) => Success(Some(c))
      case Failure(e) => Failure(e)
  {
  }

  /** The confidence threshold never changes a classification: a
      low-confidence result keeps its type. */
  lemma ThresholdIgnored(st: Settings, t: real, data: Dict, llm: Model, decode: Decoder, replies: RetryReplies, patterns: Patterns)
    ensures Classify(st, data, llm, decode, replies, patterns) ==
      Classify(st.(confidenceThreshold := t), data, llm, decode, replies, patterns)
  {
    var st' := st.(confidenceThreshold := t);
    var reply := llm(FormatAnalysisData(data));
    if reply.Success? {
      assert ParseResponse(st, reply.value, decode, replies, patterns) ==
        ParseResponse(st', reply.value, decode, replies, patterns);
    }
    assert Attempt(data, llm, decode, replies, patterns, st) == Attempt(data, llm, decode, replies, patterns, st');
  }
}
