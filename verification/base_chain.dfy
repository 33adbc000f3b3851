/** The template every evaluation chain follows
    (src/chain/base_evaluation_chain.py): normalise the input, run the
    chain's own analysis, then standardise its result; any exception turns
    into a fixed error record. The chain's analysis is a function argument
    whose `Failure` is the exception it raises, and the elapsed time is an
    input (its rounding to milliseconds is not modelled). */
module BaseChain {
  import opened Wrappers
  import opened Values
  import opened Scores

  const ErrorPrefix: string := "평가 중 오류가 발생했습니다: "
  const ContactAdmin: string := "시스템 관리자에게 문의하세요"

  /** `_preprocess_input`: a string becomes a mapping holding it under "content", a mapping is
      used as it is, anything else is rendered into `content`. */
  function Preprocess(input: Value): (r: Dict)
    ensures input.VMap? ==> r == input.entries
    ensures !input.VMap? ==> r == [("content", VStr(Show(input)))]
  {
    match input
    case VMap(entries) => entries
    case _ => [("content", VStr(Show(input)))]
  }

  /** `_extract_score`: a missing or non-numeric score is 0.0. */
  function ExtractScore(a: Dict): real {
    ToScore(GetOr(a, "score", VNum(0.0)), 0.0)
  }

  /** Keys the standardised record takes over explicitly. */
  predicate Reserved(k: string) {
    k == "score" || k == "reasoning" || k == "suggestions" || k == "data_limitations"
  }

  /** Copies every non-reserved entry of `es`, in order, into `acc`. */
  function CopyExtras(acc: Dict, es: Dict): Dict
    decreases |es|
  {
    if |es| == 0 then acc
    else if Reserved(es[0].0) then CopyExtras(acc, es[1..])
    else CopyExtras(Put(acc, es[0].0, es[0].1), es[1..])
  }

  /** The five entries every standardised record starts with. */
  function FixedFields(score: real, reasoning: Value, suggestions: Value, elapsed: real, chainName: string): Dict {
    [("score", VNum(score)),
     ("reasoning", reasoning),
     ("suggestions", suggestions),
     ("execution_time", VNum(elapsed)),
     ("chain_name", VStr(chainName))]
  }

  lemma FixedFieldsLookup(score: real, reasoning: Value, suggestions: Value, elapsed: real, chainName: string)
    ensures var r := FixedFields(score, reasoning, suggestions, elapsed, chainName);
      Get(r, "score") == Some(VNum(score)) &&
      Get(r, "reasoning") == Some(reasoning) &&
      Get(r, "suggestions") == Some(suggestions) &&
      Get(r, "chain_name") == Some(VStr(chainName))
  {
    FiveLookup("score", "reasoning", "suggestions", "execution_time", "chain_name",
      VNum(score), reasoning, suggestions, VNum(elapsed), VStr(chainName));
  }

  /** Lookups in five entries whose keys have five different lengths. */
  lemma FiveLookup(k0: string, k1: string, k2: string, k3: string, k4: string,
                   v0: Value, v1: Value, v2: Value, v3: Value, v4: Value)
    requires |k0| == 5 && |k1| == 9 && |k2| == 11 && |k3| == 14 && |k4| == 10
    ensures var d := [(k0, v0), (k1, v1), (k2, v2), (k3, v3), (k4, v4)];
      Get(d, k0) == Some(v0) && Get(d, k1) == Some(v1) && Get(d, k2) == Some(v2) && Get(d, k4) == Some(v4)
  {
    var e4 := [(k4, v4)];
    var e3 := [(k3, v3)] + e4;
    var e2 := [(k2, v2)] + e3;
    var e1 := [(k1, v1)] + e2;
    assert [(k0, v0)] + e1 == [(k0, v0), (k1, v1), (k2, v2), (k3, v3), (k4, v4)];
    ConsGet(k0, v0, e1, k0);
    ConsGet(k0, v0, e1, k1);
    ConsGet(k1, v1, e2, k1);
    ConsGet(k0, v0, e1, k2);
    ConsGet(k1, v1, e2, k2);
    ConsGet(k2, v2, e3, k2);
    ConsGet(k0, v0, e1, k4);
    ConsGet(k1, v1, e2, k4);
    ConsGet(k2, v2, e3, k4);
    ConsGet(k3, v3, e4, k4);
    ConsGet(k4, v4, [], k4);
    assert e4 == [(k4, v4)] + [];
  }

  lemma FixedFieldsNoLimitations(score: real, reasoning: Value, suggestions: Value, elapsed: real, chainName: string)
    ensures !HasKey(FixedFields(score, reasoning, suggestions, elapsed, chainName), "data_limitations")
  {
    GetMissing(FixedFields(score, reasoning, suggestions, elapsed, chainName), "data_limitations");
  }

  /** The fixed part of the standardised record, before the chain's
      extra entries are copied in. */
  function BaseRecord(a: Dict, chainName: string, elapsed: real): (r: Dict)
    ensures Get(r, "score") == Some(VNum(ExtractScore(a)))
    ensures Get(r, "reasoning") == Some(GetOr(a, "reasoning", VStr("")))
    ensures Get(r, "suggestions") == Some(GetOr(a, "suggestions", VList([])))
    ensures Get(r, "chain_name") == Some(VStr(chainName))
    ensures Get(r, "data_limitations") == Get(a, "data_limitations")
  {
    var fixed := FixedFields(ExtractScore(a), GetOr(a, "reasoning", VStr("")),
      GetOr(a, "suggestions", VList([])), elapsed, chainName);
    FixedFieldsLookup(ExtractScore(a), GetOr(a, "reasoning", VStr("")),
      GetOr(a, "suggestions", VList([])), elapsed, chainName);
    FixedFieldsNoLimitations(ExtractScore(a), GetOr(a, "reasoning", VStr("")),
      GetOr(a, "suggestions", VList([])), elapsed, chainName);
    if HasKey(a, "data_limitations") then
      var v := Get(a, "data_limitations").value;
      GetAppend(fixed, "data_limitations", v, "score");
      GetAppend(fixed, "data_limitations", v, "reasoning");
      GetAppend(fixed, "data_limitations", v, "suggestions");
      GetAppend(fixed, "data_limitations", v, "chain_name");
      GetAppend(fixed, "data_limitations", v, "data_limitations");
      fixed + [("data_limitations", v)]
    else fixed
  }

  /** `_postprocess_result` */
  function Postprocess(a: Dict, chainName: string, elapsed: real): Dict {
    CopyExtras(BaseRecord(a, chainName, elapsed), a)
  }

  /** `_handle_error` */
  function ErrorResult(message: string, chainName: string, elapsed: real): Dict {
    [("score", VNum(0.0)),
     ("reasoning", VStr(ErrorPrefix + message)),
     ("suggestions", VList([VStr(ContactAdmin)])),
     ("execution_time", VNum(elapsed)),
     ("chain_name", VStr(chainName)),
     ("error", VStr(message)),
     ("status", VStr("ERROR"))]
  }

  /** `invoke` */
  function Invoke(input: Value, chainName: string, analyze: Dict -> Result<Dict>, elapsed: real): Dict {
    match analyze(Preprocess(input))
    case Success(a) => Postprocess(a, chainName, elapsed)
    case Failure(e) => ErrorResult(e, chainName, elapsed)
  }

  /** `run`: the score of an evaluation of an empty mapping. */
  function Run(chainName: string, analyze: Dict -> Result<Dict>, elapsed: real): (r: real)
    ensures InRange(r)
  {
    var result := Invoke(VMap([]), chainName, analyze, elapsed);
    InvokeScoreInRange(VMap([]), chainName, analyze, elapsed);
    GetOr(result, "score", VNum(0.0)).n
  }

  const VideoLimitation: string := "비디오 자료 부족으로 인한 평가 제한"
  const DocumentLimitation: string := "문서 자료 부족으로 인한 평가 제한"
  const PresentationLimitation: string := "발표자료 부족으로 인한 평가 제한"

  /** Whether one analysis record lacks usable content; `Failure` when the
      record is a non-empty non-mapping, whose `.get` raises. */
  function Lacks(input: Dict, key: string): Result<bool> {
    var record := GetOr(input, key, VMap([]));
    if !Truthy(record) then Success(true)
    else if record.VMap? then Success(!Truthy(GetOr(record.entries, "content", VNone)))
    else Failure("AttributeError: 'get'")
  }

  /** A record has usable content: a mapping with a truthy `content`. */
  predicate HasContent(input: Dict, key: string) {
    var record := GetOr(input, key, VMap([]));
    record.VMap? && Truthy(GetOr(record.entries, "content", VNone))
  }

  /** A record whose `.get` raises: present, truthy and not a mapping. */
  predicate Unreadable(input: Dict, key: string) {
    var record := GetOr(input, key, VMap([]));
    Truthy(record) && !record.VMap?
  }

  /** The message for one source, when that source lacks content. */
  function NoteIfLacking(input: Dict, key: string, note: string): seq<string> {
    if HasContent(input, key) then [] else [note]
  }

  /** `_check_data_availability`: one message per missing source, in the
      order video, document, presentation. */
  function CheckDataAvailability(input: Dict): (r: Result<seq<string>>)
    ensures r.Failure? <==>
      Unreadable(input, "video_analysis") || Unreadable(input, "document_analysis") ||
      Unreadable(input, "presentation_analysis")
    ensures r.Success? ==>
      r.value == NoteIfLacking(input, "video_analysis", VideoLimitation) +
        NoteIfLacking(input, "document_analysis", DocumentLimitation) +
        NoteIfLacking(input, "presentation_analysis", PresentationLimitation)
    ensures r.Success? ==>
      (VideoLimitation in r.value <==> !HasContent(input, "video_analysis")) &&
      (DocumentLimitation in r.value <==> !HasContent(input, "document_analysis")) &&
      (PresentationLimitation in r.value <==> !HasContent(input, "presentation_analysis"))
    ensures r.Success? ==> |r.value| <= 3
  {
    match (Lacks(input, "video_analysis"), Lacks(input, "document_analysis"), Lacks(input, "presentation_analysis"))
    case (Success(v), Success(d), Success(p)) =>
      assert VideoLimitation[0] != DocumentLimitation[0] && VideoLimitation[0] != PresentationLimitation[0]
        && DocumentLimitation[0] != PresentationLimitation[0];
      ThreeFlags(VideoLimitation, DocumentLimitation, PresentationLimitation, v, d, p);
      LacksMeansNoContent(input, "video_analysis");
      LacksMeansNoContent(input, "document_analysis");
      LacksMeansNoContent(input, "presentation_analysis");
      Success((if v then [VideoLimitation] else []) +
              (if d then [DocumentLimitation] else []) +
              (if p then [PresentationLimitation] else []))
    case (Failure(e), _, _) => Failure(e)
    case (_, Failure(e), _) => Failure(e)
    case (_, _, Failure(e)) => Failure(e)
  }

  lemma LacksMeansNoContent(input: Dict, key: string)
    ensures Lacks(input, key).Failure? <==> Unreadable(input, key)
    ensures Lacks(input, key).Success? ==> (Lacks(input, key).value <==> !HasContent(input, key))
  {
  }

  /** Three distinct messages, each kept when its flag is set. */
  lemma ThreeFlags(a: string, b: string, c: string, x: bool, y: bool, z: bool)
    requires a != b && a != c && b != c
    ensures var s := (if x then [a] else []) + (if y then [b] else []) + (if z then [c] else []);
      (a in s <==> x) && (b in s <==> y) && (c in s <==> z) && |s| <= 3
  {
  }

  // ---------------------------------------------------------------------

  lemma {:induction false} CopyExtrasGet(acc: Dict, es: Dict, k: string)
    requires UniqueKeys(es)
    ensures Get(CopyExtras(acc, es), k) ==
      if !Reserved(k) && HasKey(es, k) then Get(es, k) else Get(acc, k)
    decreases |es|
  {
    if |es| > 0 {
      assert UniqueKeys(es[1..]);
      var rest := es[1..];
      if Reserved(es[0].0) {
        CopyExtrasGet(acc, rest, k);
      } else {
        CopyExtrasGet(Put(acc, es[0].0, es[0].1), rest, k);
      }
    }
  }

  lemma {:induction false} KeysIndex(d: Dict, j: int)
    requires 0 <= j < |d|
    ensures |Keys(d)| == |d| && Keys(d)[j] == d[j].0
  {
    if j > 0 {
      KeysIndex(d[1..], j - 1);
    }
  }

  /** The standardised record: the score is on the 0..10 scale, reasoning
      and suggestions are carried over, and every other entry of the
      chain's own result reaches the caller unchanged (including ones that
      overwrite `execution_time` or `chain_name`). */
  lemma PostprocessContents(a: Dict, chainName: string, elapsed: real, k: string)
    requires UniqueKeys(a)
    ensures var r := Postprocess(a, chainName, elapsed);
      Get(r, "score") == Some(VNum(ExtractScore(a))) && InRange(ExtractScore(a)) &&
      Get(r, "reasoning") == Some(GetOr(a, "reasoning", VStr(""))) &&
      Get(r, "suggestions") == Some(GetOr(a, "suggestions", VList([]))) &&
      Get(r, "data_limitations") == Get(a, "data_limitations") &&
      (!Reserved(k) && HasKey(a, k) ==> Get(r, k) == Get(a, k)) &&
      (!HasKey(a, "chain_name") ==> Get(r, "chain_name") == Some(VStr(chainName)))
  {
    var b := BaseRecord(a, chainName, elapsed);
    CopyExtrasGet(b, a, k);
    CopyExtrasGet(b, a, "score");
    CopyExtrasGet(b, a, "reasoning");
    CopyExtrasGet(b, a, "suggestions");
    CopyExtrasGet(b, a, "data_limitations");
    CopyExtrasGet(b, a, "chain_name");
  }

  /** An analysis whose score is already on the 0..10 scale keeps it
      through `invoke`. */
  lemma InvokeKeepsScore(data: Dict, chainName: string, analyze: Dict -> Result<Dict>, elapsed: real,
                         a: Dict, score: real)
    requires analyze(data) == Success(a) && UniqueKeys(a)
    requires Get(a, "score") == Some(VNum(score)) && InRange(score)
    ensures Get(Invoke(VMap(data), chainName, analyze, elapsed), "score") == Some(VNum(score))
  {
    assert Preprocess(VMap(data)) == data;
    assert Invoke(VMap(data), chainName, analyze, elapsed) == Postprocess(a, chainName, elapsed);
    var b := BaseRecord(a, chainName, elapsed);
    CopyExtrasGet(b, a, "score");
    assert ToFloat(GetOr(a, "score", VNum(0.0))) == Some(score);
    assert Get(b, "score") == Some(VNum(score));
  }

  /** Whatever the chain does, `invoke` returns a record whose score is a
      number on the 0..10 scale; a failing analysis gives the error record
      with score 0 and status ERROR. */
  lemma InvokeScoreInRange(input: Value, chainName: string, analyze: Dict -> Result<Dict>, elapsed: real)
    ensures var r := Invoke(input, chainName, analyze, elapsed);
      Get(r, "score").Some? && Get(r, "score").value.VNum? && InRange(Get(r, "score").value.n)
    ensures analyze(Preprocess(input)).Failure? ==>
      var r := Invoke(input, chainName, analyze, elapsed);
      Get(r, "score") == Some(VNum(0.0)) && Get(r, "status") == Some(VStr("ERROR"))
  {
    match analyze(Preprocess(input))
    case Success(a) =>
      CopyExtrasReservedScore(BaseRecord(a, chainName, elapsed), a);
    case Failure(e) =>
      GetIndex(ErrorResult(e, chainName, elapsed), 6);
  }

  /** `score` is reserved, so copying extras never touches it (no
      uniqueness of keys is needed for that). */
  lemma {:induction false} CopyExtrasReservedScore(acc: Dict, es: Dict)
    ensures Get(CopyExtras(acc, es), "score") == Get(acc, "score")
    decreases |es|
  {
    if |es| > 0 {
      if Reserved(es[0].0) {
        CopyExtrasReservedScore(acc, es[1..]);
      } else {
        CopyExtrasReservedScore(Put(acc, es[0].0, es[0].1), es[1..]);
      }
    }
  }

  /** No limitation is reported exactly when all three sources have content. */
  lemma NoLimitationsIffAllContent(input: Dict)
    requires CheckDataAvailability(input).Success?
    ensures CheckDataAvailability(input).value == [] <==>
      HasContent(input, "video_analysis") && HasContent(input, "document_analysis") &&
      HasContent(input, "presentation_analysis")
  {
  }

  /** Where a message stands in the fixed source order. */
  function SourceRank(note: string): int {
    if note == VideoLimitation then 0
    else if note == DocumentLimitation then 1
    else if note == PresentationLimitation then 2
    else 3
  }

  /** The messages name sources only, each at most once, in the order
      video, document, presentation: the order the scorers' joined
      `data_limitations` text shows. */
  lemma {:induction false} LimitationsInSourceOrder(input: Dict)
    requires CheckDataAvailability(input).Success?
    ensures var r := CheckDataAvailability(input).value;
      && (forall i :: 0 <= i < |r| ==> SourceRank(r[i]) < 3)
      && (forall i, j :: 0 <= i < j < |r| ==> SourceRank(r[i]) < SourceRank(r[j]))
  {
    var r := CheckDataAvailability(input).value;
    var v := NoteIfLacking(input, "video_analysis", VideoLimitation);
    var d := NoteIfLacking(input, "document_analysis", DocumentLimitation);
    var p := NoteIfLacking(input, "presentation_analysis", PresentationLimitation);
    assert r == v + d + p;
    assert SourceRank(VideoLimitation) == 0;
    assert SourceRank(DocumentLimitation) == 1 by {
      assert DocumentLimitation[0] != VideoLimitation[0];
    }
    assert SourceRank(PresentationLimitation) == 2 by {
      assert PresentationLimitation[0] != VideoLimitation[0];
      assert PresentationLimitation[0] != DocumentLimitation[0];
    }
    forall i | 0 <= i < |r|
      ensures SourceRank(r[i]) == (if i < |v| then 0 else if i < |v| + |d| then 1 else 2)
    {
      if i < |v| {
        assert r[i] == v[i];
      } else if i < |v| + |d| {
        assert r[i] == d[i - |v|];
      } else {
        assert r[i] == p[i - |v| - |d|];
      }
    }
  }
}
