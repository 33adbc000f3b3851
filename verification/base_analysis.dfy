/** The artifact analysers' shared entry point
    (`src/analysis/base_analysis.py`): an input without a usable S3 URI is
    skipped with a fixed record, any other is handed to the analyser's
    own `process`. The video, document and presentation analysers inherit
    this entry point and only supply `process`, here a parameter. */
module BaseAnalysis {
  import opened Wrappers
  import opened Text
  import opened Values

  /** An analyser's `process`: the URI to a record, or the exception. */
  type Process = string -> Result<Value>

  const SkipReason: string := "파일이 제공되지 않음"

  /** `get_empty_result`. */
  function EmptyResult(): (r: Value)
    ensures r.VMap? && Get(r.entries, "status") == Some(VStr("skipped"))
    ensures Get(r.entries, "reason") == Some(VStr(SkipReason)) && SkipReason != ""
    ensures Get(r.entries, "data") == Some(VMap([]))
  {
    VMap([("status", VStr("skipped")), ("reason", VStr(SkipReason)), ("data", VMap([]))])
  }

  /** The URI is missing, falsy, or a string of whitespace only. */
  predicate NoUri(input: Dict) {
    var uri := GetOr(input, "s3_uri", VNone);
    !Truthy(uri) || (uri.VStr? && IsBlank(uri.s))
  }

  /** `invoke`: the skipped record without a URI; otherwise `process` of
      the URI exactly as given. A truthy URI that is not a string fails
      at `.strip()`. */
  function Invoke(input: Dict, process: Process): (r: Result<Value>)
    ensures NoUri(input) ==> r == Success(EmptyResult())
    ensures !NoUri(input) && GetOr(input, "s3_uri", VNone).VStr? ==> r == process(GetOr(input, "s3_uri", VNone).s)
    ensures !NoUri(input) && !GetOr(input, "s3_uri", VNone).VStr? ==> r.Failure?
  {
    var uri := GetOr(input, "s3_uri", VNone);
    if !Truthy(uri) then Success(EmptyResult())
    else if !uri.VStr? then Failure("AttributeError: 'strip'")
    else if IsBlank(uri.s) then Success(EmptyResult())
    else process(uri.s)
  }

  /** A skipped input never reaches `process`: any two analysers give
      the same result. */
  lemma SkipIgnoresProcess(input: Dict, p: Process, q: Process)
    requires NoUri(input)
    ensures Invoke(input, p) == Invoke(input, q) == Success(EmptyResult())
  {
  }

  /** An input with a usable URI reaches `process` unchanged, and only
      then. */
  lemma UriReachesProcess(input: Dict, uri: string, p: Process)
    requires Get(input, "s3_uri") == Some(VStr(uri))
    ensures Invoke(input, p) == (if IsBlank(uri) then Success(EmptyResult()) else p(uri))
  {
    assert GetOr(input, "s3_uri", VNone) == VStr(uri);
    if uri == "" {
      BlankIffAllSpace(uri);
    }
  }

  /** The base `process`: always `NotImplementedError`. */
  function BaseProcess(uri: string): (r: Result<Value>)
    ensures r.Failure?
  {
    Failure("NotImplementedError: 하위 클래스에서 구현해야 합니다.")
  }

  /** The base analyser on its own either skips or fails. */
  lemma BaseNeverAnalyses(input: Dict)
    ensures Invoke(input, BaseProcess) == Success(EmptyResult()) <==> NoUri(input)
    ensures !NoUri(input) ==> Invoke(input, BaseProcess).Failure?
  {
  }
}
