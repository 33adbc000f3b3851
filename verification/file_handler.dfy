/** The web upload checks and stored-file naming (`src/web/file_handler.py`):
    the size, emptiness and extension checks in that order, the MIME check
    that only warns, and the safe file name. Python's `str.isalnum` (which
    accepts every Unicode letter and digit) is a parameter, and so is the
    timestamp text. */
module FileHandler {
  import opened Wrappers
  import opened Text

  type CharTest = char -> bool

  const MiB: nat := 1024 * 1024
  const DefaultMaxSize: nat := 10 * MiB

  /** The outcome of `_validate_file`: accepted, with the warning the MIME
      check may print, or rejected with the `ValueError` message. */
  datatype Verdict = Accepted(warning: Option<string>) | Rejected(message: string)

  predicate KnownKind(kind: string) {
    kind == "document" || kind == "presentation" || kind == "video"
  }

  /** `MAX_FILE_SIZES.get(kind, 10MB)` */
  function MaxFileSize(kind: string): (r: nat)
    ensures kind == "document" ==> r == 10 * MiB
    ensures kind == "presentation" ==> r == 50 * MiB
    ensures kind == "video" ==> r == 500 * MiB
    ensures !KnownKind(kind) ==> r == DefaultMaxSize
  {
    match kind
    case "document" => 10 * MiB
    case "presentation" => 50 * MiB
    case "video" => 500 * MiB
    case _ => DefaultMaxSize
  }

  /** `SUPPORTED_FORMATS.get(kind, [])` */
  function SupportedFormats(kind: string): (r: seq<string>)
    ensures !KnownKind(kind) ==> r == []
  {
    match kind
    case "document" => [".txt", ".doc", ".docx"]
    case "presentation" => [".pdf", ".ppt", ".pptx"]
    case "video" => [".mp4", ".avi", ".mov"]
    case _ => []
  }

  /** The MIME types `_validate_mime_type` expects for a kind. */
  function ValidMimes(kind: string): seq<string> {
    match kind
    case "document" =>
      ["text/plain", "application/msword",
       "application/vnd.openxmlformats-officedocument.wordprocessingml.document"]
    case "presentation" =>
      ["application/pdf", "application/vnd.ms-powerpoint",
       "application/vnd.openxmlformats-officedocument.presentationml.presentation"]
    case "video" => ["video/mp4", "video/avi", "video/quicktime"]
    case _ => []
  }

  const EmptyUpload: string := "빈 파일은 업로드할 수 없습니다."

  function TooLarge(size: nat, max: nat): string {
    "파일 크기가 너무 큽니다. 최대 " + NatToString(max / MiB) + "MB까지 지원됩니다. 현재 파일 크기: " +
    NatToString(size / MiB) + "MB"
  }

  function Unsupported(formats: seq<string>): string {
    "지원되지 않는 파일 형식입니다. 지원 형식: " + Join(", ", formats)
  }

  /** `_validate_mime_type`: a warning for a known kind whose guessed type
      is not among the expected ones; nothing otherwise. */
  function MimeWarning(mime: string, kind: string): (r: Option<string>)
    ensures r.Some? <==> KnownKind(kind) && mime !in ValidMimes(kind)
  {
    if KnownKind(kind) && mime !in ValidMimes(kind) then
      Some("파일 형식 경고: " + mime + "는 예상되지 않은 MIME 타입입니다.")
    else None
  }

  /** `Path(name).suffix.lower()` */
  function NameSuffix(name: string): string {
    Lower(Suffix(PathName(name)))
  }

  /** `_validate_file` on an upload of `size` bytes named `name`, with the
      type `mimetypes` guessed for it. */
  function ValidateFile(size: nat, name: string, kind: string, mime: Option<string>): (r: Verdict)
    ensures r.Accepted? <==> 0 < size <= MaxFileSize(kind) && NameSuffix(name) in SupportedFormats(kind)
    ensures size > MaxFileSize(kind) ==> r == Rejected(TooLarge(size, MaxFileSize(kind)))
    ensures size == 0 ==> r == Rejected(EmptyUpload)
    ensures 0 < size <= MaxFileSize(kind) && NameSuffix(name) !in SupportedFormats(kind) ==>
      r == Rejected(Unsupported(SupportedFormats(kind)))
    ensures r.Accepted? ==>
      (r.warning.Some? <==> mime.Some? && mime.value != "" && KnownKind(kind) && mime.value !in ValidMimes(kind))
  {
    var max := MaxFileSize(kind);
    if size > max then Rejected(TooLarge(size, max))
    else if size == 0 then Rejected(EmptyUpload)
    else if NameSuffix(name) !in SupportedFormats(kind) then Rejected(Unsupported(SupportedFormats(kind)))
    else if mime.Some? && mime.value != "" then Accepted(MimeWarning(mime.value, kind))
    else Accepted(None)
  }

  /** The guessed MIME type never decides acceptance, nor the message of a
      rejection. */
  lemma MimeNeverRejects(size: nat, name: string, kind: string, m1: Option<string>, m2: Option<string>)
    ensures ValidateFile(size, name, kind, m1).Accepted? == ValidateFile(size, name, kind, m2).Accepted?
    ensures ValidateFile(size, name, kind, m1).Rejected? ==>
      ValidateFile(size, name, kind, m1) == ValidateFile(size, name, kind, m2)
  {
  }

  /** Only the name's last component decides the suffix, so a trailing
      '/' changes nothing. */
  lemma ValidateIgnoresTrailingSlash(size: nat, name: string, kind: string, mime: Option<string>)
    ensures ValidateFile(size, name + "/", kind, mime) == ValidateFile(size, name, kind, mime)
  {
    PathNameTrailingSlash(name);
  }

  /** A kind outside the three known ones accepts nothing. */
  lemma UnknownKindRejected(size: nat, name: string, kind: string, mime: Option<string>)
    requires !KnownKind(kind)
    ensures ValidateFile(size, name, kind, mime).Rejected?
  {
  }

  // Safe file names

  predicate Allowed(c: char, alnum: CharTest) {
    alnum(c) || c == '.' || c == '_' || c == '-'
  }

  /** The characters of the name that are alphanumeric or one of "._-". */
  function SafeChars(name: string, alnum: CharTest): (r: string)
    ensures |r| <= |name|
    ensures forall i :: 0 <= i < |r| ==> Allowed(r[i], alnum)
  {
    if |name| == 0 then ""
    else
      var rest := SafeChars(name[1..], alnum);
      if Allowed(name[0], alnum) then [name[0]] + rest else rest
  }

  /** A name of allowed characters only is kept whole. */
  lemma {:induction false} SafeCharsKeepsAllowed(name: string, alnum: CharTest)
    requires forall i :: 0 <= i < |name| ==> Allowed(name[i], alnum)
    ensures SafeChars(name, alnum) == name
  {
    if |name| > 0 {
      SafeCharsKeepsAllowed(name[1..], alnum);
      assert [name[0]] + name[1..] == name;
    }
  }

  /** Cleaning distributes over concatenation. */
  lemma {:induction false} SafeCharsConcat(a: string, b: string, alnum: CharTest)
    ensures SafeChars(a + b, alnum) == SafeChars(a, alnum) + SafeChars(b, alnum)
  {
    if |a| > 0 {
      SafeCharsConcat(a[1..], b, alnum);
      assert (a + b)[1..] == a[1..] + b;
    } else {
      assert a + b == b;
    }
  }

  /** Cleaning a cleaned name changes nothing. */
  lemma SafeCharsIdempotent(name: string, alnum: CharTest)
    ensures SafeChars(SafeChars(name, alnum), alnum) == SafeChars(name, alnum)
  {
    SafeCharsKeepsAllowed(SafeChars(name, alnum), alnum);
  }

  /** A name over 100 characters is cut to the first 80 characters of the
      stem of its path name, followed by that name's suffix. */
  function Shorten(safe: string): (r: string)
    ensures |safe| <= 100 ==> r == safe
    ensures |safe| > 100 ==> |r| <= 80 + |Suffix(PathName(safe))| && '/' !in r && r != "."
    ensures |safe| > 100 && Suffix(PathName(safe)) != "" ==>
      Suffix(r) == Suffix(PathName(safe)) && Stem(r) == Stem(PathName(safe))[..Min(80, |Stem(PathName(safe))|)]
  {
    if |safe| > 100 then
      var name := PathName(safe);
      var stem := Stem(name);
      var cut := stem[..Min(80, |stem|)];
      StemSuffix(name);
      assert stem == name[..|stem|] && Suffix(name) == name[|stem|..];
      if Suffix(name) != "" then
        StemNotEmpty(name);
        SuffixOfJoin(cut, Suffix(name));
        cut + Suffix(name)
      else cut + Suffix(name)
    else safe
  }

  function Min(a: int, b: int): int {
    if a < b then a else b
  }

  /** A name with a suffix has a non-empty stem and a dot-led, dot-free
      suffix. */
  lemma StemNotEmpty(name: string)
    requires Suffix(name) != ""
    ensures |Stem(name)| > 0
    ensures |Suffix(name)| >= 2 && Suffix(name)[0] == '.' && '.' !in Suffix(name)[1..]
  {
    var i := SuffixDot(name).value;
    assert Suffix(name)[1..] == name[i + 1..];
  }

  /** `_generate_safe_filename`: kind, timestamp, then the stem and
      suffix of the path name of the cleaned and shortened name. Those two
      give the path name back, which is the shortened name itself unless
      cleaning left just ".", whose path name is empty. */
  function SafeFilename(original: string, kind: string, timestamp: string, alnum: CharTest): (r: string)
    ensures r == kind + "_" + timestamp + "_" + PathName(Shorten(SafeChars(original, alnum)))
    ensures !alnum('/') && SafeChars(original, alnum) != "." ==>
      r == kind + "_" + timestamp + "_" + Shorten(SafeChars(original, alnum))
    ensures SafeChars(original, alnum) == "." ==> r == kind + "_" + timestamp + "_"
  {
    var safe := Shorten(SafeChars(original, alnum));
    var name := PathName(safe);
    StemSuffix(name);
    CleanedName(original, alnum);
    kind + "_" + timestamp + "_" + Stem(name) + Suffix(name)
  }

  /** The path name of a cleaned and shortened name: the name itself when
      '/' is not kept and cleaning did not leave ".", and empty for ".". */
  lemma CleanedName(original: string, alnum: CharTest)
    ensures !alnum('/') && SafeChars(original, alnum) != "." ==>
      PathName(Shorten(SafeChars(original, alnum))) == Shorten(SafeChars(original, alnum))
    ensures SafeChars(original, alnum) == "." ==> PathName(Shorten(SafeChars(original, alnum))) == ""
  {
    var cleaned := SafeChars(original, alnum);
    if !alnum('/') {
      assert '/' !in cleaned;
    }
    if cleaned == "." {
      assert RFind(cleaned, '/') == -1;
    }
  }

  predicate AllAllowed(s: string, alnum: CharTest) {
    forall i :: 0 <= i < |s| ==> Allowed(s[i], alnum)
  }

  lemma AllowedPrefix(s: string, k: nat, alnum: CharTest)
    requires AllAllowed(s, alnum) && k <= |s|
    ensures AllAllowed(s[..k], alnum)
  {
  }

  lemma AllowedConcat(s: string, t: string, alnum: CharTest)
    requires AllAllowed(s, alnum) && AllAllowed(t, alnum)
    ensures AllAllowed(s + t, alnum)
  {
    forall i | 0 <= i < |s + t|
      ensures Allowed((s + t)[i], alnum)
    {
      if i < |s| {
        assert (s + t)[i] == s[i];
      } else {
        assert (s + t)[i] == t[i - |s|];
      }
    }
  }

  /** Shortening keeps only characters the name already had, so the
      name part of a safe file name holds only allowed characters. */
  lemma ShortenKeepsAllowed(original: string, alnum: CharTest)
    ensures AllAllowed(Shorten(SafeChars(original, alnum)), alnum)
  {
    var safe := SafeChars(original, alnum);
    if |safe| > 100 {
      var name := PathName(safe);
      AllowedName(safe, alnum);
      StemSuffix(name);
      var stem := Stem(name);
      var suffix := Suffix(name);
      assert stem == name[..|stem|];
      assert suffix == name[|stem|..];
      AllowedPrefix(name, |stem|, alnum);
      AllowedPrefix(stem, Min(80, |stem|), alnum);
      assert AllAllowed(suffix, alnum);
      AllowedConcat(stem[..Min(80, |stem|)], suffix, alnum);
    }
  }

  /** The path name of an allowed name is allowed. */
  lemma AllowedName(s: string, alnum: CharTest)
    requires AllAllowed(s, alnum)
    ensures AllAllowed(PathName(s), alnum)
  {
    var r := PathName(s);
    PathNameChars(s);
    forall j | 0 <= j < |r|
      ensures Allowed(r[j], alnum)
    {
      assert r[j] in s;
    }
  }
}
