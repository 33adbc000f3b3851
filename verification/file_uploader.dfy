/** The upload front end (`src/uploads/file_uploader.py`): extension and
    type detection, the video, document and presentation checks, the
    content-type tables, and how every failure is reported. The file
    system's answers (does the file exist, its size, is it readable) and
    the store are parameters. */
module FileUploader {
  import opened Wrappers
  import opened Text
  import NovaGateway
  import S3Storage

  /** `FileUploaderError` and its subclasses: `VideoUploadError`, and under
      it `UnsupportedVideoFormatError` and `VideoFileSizeError`. */
  datatype ErrorKind = Uploader | VideoUpload | UnsupportedVideoFormat | VideoFileSize

  /** A raised exception: its class and message. */
  datatype Raised = Raised(kind: ErrorKind, message: string)

  /** What the file system says about a local path. */
  datatype FileFacts = FileFacts(present: bool, size: nat, readable: bool)

  /** The record an upload returns; `success` is always true. */
  datatype UploadRecord = UploadRecord(
    fileType: string,
    s3Url: string,
    httpsUrl: string,
    key: string,
    fileSize: nat,
    originalFilename: string,
    contentType: string)

  /** The store's `upload_file`: a path and content type to the stored
      record, or the message of the `S3StorageError` it raises. */
  type Store = (string, string) -> Result<S3Storage.Stored>

  type Table = seq<(string, string)>

  const MiB: nat := 1024 * 1024
  const MaxVideoSize: nat := 500 * MiB
  const MaxDocumentSize: nat := 100 * MiB
  const MaxPresentationSize: nat := 200 * MiB

  const VideoFormats: Table := [
    (".mp4", "video/mp4"), (".mov", "video/quicktime"), (".avi", "video/x-msvideo"),
    (".wmv", "video/x-ms-wmv"), (".flv", "video/x-flv"), (".webm", "video/webm"),
    (".mkv", "video/x-matroska"), (".m4v", "video/x-m4v"), (".3gp", "video/3gpp"), (".ogv", "video/ogg")]
  const VideoTypes: seq<string> := [".mp4", ".mov", ".avi", ".wmv", ".flv", ".webm", ".mkv", ".m4v", ".3gp", ".ogv"]
  const DocumentTypes: seq<string> := [".doc", ".docx", ".txt", ".rtf"]
  const PresentationTypes: seq<string> := [".pdf", ".jpg", ".jpeg", ".png", ".gif", ".bmp", ".tiff", ".webp"]
  const ImageTypes: seq<string> := [".jpg", ".jpeg", ".png", ".gif", ".bmp", ".tiff", ".webp"]

  /** `supported_types`, in its insertion order. */
  const SupportedTypes: seq<(string, seq<string>)> := [
    ("video", VideoTypes), ("document", DocumentTypes),
    ("presentation", PresentationTypes), ("image", ImageTypes)]

  const DocumentMimes: Table := [
    (".doc", "application/msword"),
    (".docx", "application/vnd.openxmlformats-officedocument.wordprocessingml.document"),
    (".txt", "text/plain"), (".rtf", "application/rtf")]
  const PresentationMimes: Table := [
    (".pdf", "application/pdf"), (".jpg", "image/jpeg"), (".jpeg", "image/jpeg"), (".png", "image/png"),
    (".gif", "image/gif"), (".bmp", "image/bmp"), (".tiff", "image/tiff"), (".webp", "image/webp")]

  const NotFound: string := "파일을 찾을 수 없습니다: "
  const NoExtensionFound: string := "파일 확장자를 확인할 수 없습니다"
  const EmptyFile: string := "파일이 비어있습니다"
  const Unreadable: string := "파일을 읽을 수 있는 권한이 없습니다"
  const NoUri: string := "S3 URI가 제공되지 않았습니다"
  const BadScheme: string := "올바른 S3 URI 형식이 아닙니다 (s3:// 또는 https://s3로 시작해야 함)"
  const NoUriExtension: string := "S3 URI에 파일 확장자가 필요합니다"
  const VideoFailed: string := "동영상 업로드 실패: "
  const StoreFailed: string := "S3 업로드 실패: "
  const DocumentUnexpected: string := "문서 업로드 중 예상치 못한 오류: "
  const PresentationUnexpected: string := "프레젠테이션 업로드 중 예상치 못한 오류: "
  const AutoFailed: string := "자동 업로드 실패: "
  const UnsupportedKind: string := "지원하지 않는 파일 타입입니다: "

  /** `str(n)` of an integer. */
  function Decimal(n: int): string {
    if n < 0 then "-" + NatToString(-n) else NatToString(n)
  }

  /** A table has an entry for `k`. */
  predicate Listed(table: Table, k: string) {
    exists p :: p in table && p.0 == k
  }

  /** `table.get(k, default)`: the first entry for `k`, else the default. */
  function Lookup(table: Table, k: string, default: string): (r: string)
    ensures Listed(table, k) ==> (k, r) in table
    ensures !Listed(table, k) ==> r == default
  {
    if |table| == 0 then default
    else if table[0].0 == k then table[0].1
    else
      var r := Lookup(table[1..], k, default);
      assert Listed(table, k) ==> Listed(table[1..], k) by {
        if Listed(table, k) {
          var p :| p in table && p.0 == k;
          assert p != table[0];
          assert p in table[1..];
        }
      }
      r
  }

  /** `Path(file_path).suffix.lower()` */
  function PathSuffix(path: string): string {
    Lower(Suffix(PathName(path)))
  }

  // Extensions in URIs

  /** `_extract_file_extension`: the query string is dropped, then '.' and
      the lower-cased text after the last '.', or "" without a '.'. */
  function ExtractExtension(uri: string): (r: string)
    ensures r == "" <==> '.' !in FirstPart(uri, '?')
    ensures r != "" ==> r == "." + NovaGateway.Extension(FirstPart(uri, '?'))
  {
    var base := FirstPart(uri, '?');
    if '.' in base then "." + Lower(LastPart(base, '.')) else ""
  }

  /** A URI made of a '?'-free path, a dot-free extension and any query
      gives back that extension, lower-cased. */
  lemma ExtractExtensionOf(path: string, ext: string, query: string)
    requires '?' !in path && '?' !in ext && '.' !in ext
    ensures ExtractExtension(path + "." + ext + "?" + query) == "." + Lower(ext)
    ensures ExtractExtension(path + "." + ext) == "." + Lower(ext)
  {
    var file := path + "." + ext;
    assert '?' !in file by {
      assert forall i :: 0 <= i < |file| ==> file[i] == (if i < |path| then path[i] else if i == |path| then '.' else ext[i - |path| - 1]);
    }
    var uri := file + "?" + query;
    assert uri[..|file|] == file && uri[|file|] == '?';
    assert FirstPart(uri, '?') == file;
    assert FirstPart(file, '?') == file;
    assert file[|path|] == '.';
    NovaGateway.ExtensionOf(path, ext);
  }

  predicate HasS3Scheme(uri: string) {
    StartsWith(uri, "s3://") || StartsWith(uri, "https://s3")
  }

  /** What `validate_s3_uri` reports about an accepted URI. */
  datatype UriReport = UriReport(uri: string, extension: string, mimeType: string)

  function UnsupportedVideo(ext: string): string {
    "지원하지 않는 동영상 형식입니다. 현재 확장자: " + ext + ", 지원 형식: " + Join(", ", VideoTypes)
  }

  /** `validate_s3_uri` */
  function ValidateS3Uri(uri: string): (r: Result<UriReport>)
    ensures r.Success? <==>
      !IsBlank(uri) && HasS3Scheme(Strip(uri)) && '.' in Strip(uri) && ExtractExtension(Strip(uri)) in VideoTypes
    ensures r.Success? ==>
      r.value.uri == Strip(uri) && r.value.extension == ExtractExtension(Strip(uri)) &&
      (r.value.extension, r.value.mimeType) in VideoFormats
    ensures IsBlank(uri) ==> r == Failure(NoUri)
  {
    if IsBlank(uri) then Failure(NoUri)
    else
      var u := Strip(uri);
      if !HasS3Scheme(u) then Failure(BadScheme)
      else if '.' !in u then Failure(NoUriExtension)
      else
        var ext := ExtractExtension(u);
        if ext !in VideoTypes then Failure(UnsupportedVideo(ext))
        else
          VideoTypesListed(ext);
          Success(UriReport(u, ext, Lookup(VideoFormats, ext, "")))
  }

  /** The video extensions are exactly the keys of the video MIME table. */
  lemma VideoTypesListed(ext: string)
    ensures ext in VideoTypes <==> Listed(VideoFormats, ext)
  {
    assert forall i :: 0 <= i < |VideoTypes| ==> VideoTypes[i] == VideoFormats[i].0;
    KeysListed(VideoFormats, VideoTypes, ext);
  }

  /** A list of a table's keys in order holds exactly the listed keys. */
  lemma KeysListed(table: Table, keys: seq<string>, k: string)
    requires |keys| == |table| && forall i :: 0 <= i < |keys| ==> keys[i] == table[i].0
    ensures k in keys <==> Listed(table, k)
  {
    if k in keys {
      var i :| 0 <= i < |keys| && keys[i] == k;
      assert table[i] in table;
    }
    if Listed(table, k) {
      var p :| p in table && p.0 == k;
      var i :| 0 <= i < |table| && table[i] == p;
      assert keys[i] == k;
    }
  }

  // Type detection

  /** The loop of `_detect_file_type`: the kind of the first list that
      holds the extension, or "unknown". */
  function FirstKind(types: seq<(string, seq<string>)>, ext: string): (r: string)
    ensures (forall i :: 0 <= i < |types| ==> ext !in types[i].1) ==> r == "unknown"
    ensures forall i :: 0 <= i < |types| && ext in types[i].1 && (forall j :: 0 <= j < i ==> ext !in types[j].1) ==>
      r == types[i].0
  {
    if |types| == 0 then "unknown"
    else if ext in types[0].1 then types[0].0
    else
      var r := FirstKind(types[1..], ext);
      assert forall i :: 1 <= i < |types| ==> types[i] == types[1..][i - 1];
      r
  }

  /** Over four lists, the first match is a chain of tests in list order. */
  lemma FirstOfFour(a: seq<string>, b: seq<string>, c: seq<string>, d: seq<string>, ext: string)
    ensures FirstKind([("video", a), ("document", b), ("presentation", c), ("image", d)], ext) ==
      if ext in a then "video" else if ext in b then "document"
      else if ext in c then "presentation" else if ext in d then "image" else "unknown"
  {
    var types := [("video", a), ("document", b), ("presentation", c), ("image", d)];
    if ext in a {
      assert ext in types[0].1;
    } else if ext in b {
      assert ext in types[1].1;
    } else if ext in c {
      assert ext in types[2].1;
    } else if ext in d {
      assert ext in types[3].1;
    }
  }

  /** `_detect_file_type` */
  function DetectFileType(path: string): (r: string)
    ensures r == "video" <==> PathSuffix(path) in VideoTypes
    ensures r == "document" <==> PathSuffix(path) in DocumentTypes
    ensures r == "presentation" <==> PathSuffix(path) in PresentationTypes
    ensures r == "unknown" <==> PathSuffix(path) !in VideoTypes + DocumentTypes + PresentationTypes
  {
    var ext := PathSuffix(path);
    KindListsDisjoint(ext);
    FirstOfFour(VideoTypes, DocumentTypes, PresentationTypes, ImageTypes, ext);
    FirstKind(SupportedTypes, ext)
  }

  /** A trailing '/' does not change the detected type, and neither do
      the directories before a name. */
  lemma DetectIgnoresDirectories(dir: string, name: string)
    requires '/' !in name && name != "" && name != "."
    ensures DetectFileType(dir + "/" + name + "/") == DetectFileType(name)
    ensures DetectFileType(name + "/") == DetectFileType(name)
  {
    PathNameTrailingSlash(dir + "/" + name);
    PathNameTrailingSlash(name);
    PathNameAfterSlash(dir, name);
    SameSuffixSameType(dir + "/" + name + "/", name);
    SameSuffixSameType(name + "/", name);
  }

  /** The type depends on the suffix alone. */
  lemma SameSuffixSameType(a: string, b: string)
    requires PathSuffix(a) == PathSuffix(b)
    ensures DetectFileType(a) == DetectFileType(b)
  {
    ImageNeverDetected(a);
    ImageNeverDetected(b);
  }

  /** No extension is in two of the first three lists, and every image
      extension is a presentation one. */
  lemma KindListsDisjoint(ext: string)
    ensures !(ext in VideoTypes && ext in DocumentTypes)
    ensures !(ext in VideoTypes && ext in PresentationTypes)
    ensures !(ext in DocumentTypes && ext in PresentationTypes)
    ensures ext in ImageTypes ==> ext in PresentationTypes
  {
  }

  /** "image" is never detected: the presentation list, checked first,
      holds every image extension. */
  lemma ImageNeverDetected(path: string)
    ensures DetectFileType(path) in ["video", "document", "presentation", "unknown"]
  {
    var ext := PathSuffix(path);
    KindListsDisjoint(ext);
  }

  /** A ".jpg" file counts as a presentation. */
  lemma JpgIsPresentation(stem: string)
    requires |stem| > 0 && '/' !in stem
    ensures DetectFileType(stem + ".jpg") == "presentation"
  {
    SuffixOfJoin(stem, ".jpg");
    assert PathName(stem + ".jpg") == stem + ".jpg" by {
      assert '/' !in stem + ".jpg";
    }
    LowerKeepsLowercase(".jpg");
  }

  /** The store's key folder always agrees with the detected type. */
  lemma FolderMatchesDetection(path: string)
    ensures S3Storage.Folder(Suffix(PathName(path))) ==
      match DetectFileType(path)
      case "video" => "videos"
      case "document" => "documents"
      case "presentation" => "presentations"
      case _ => "others"
  {
    var ext := PathSuffix(path);
    SameLists(ext);
    KindListsDisjoint(ext);
  }

  lemma SameLists(ext: string)
    ensures ext in S3Storage.VideoExtensions <==> ext in VideoTypes
    ensures ext in S3Storage.DocumentExtensions <==> ext in DocumentTypes
    ensures ext in S3Storage.PresentationExtensions <==> ext in PresentationTypes
  {
  }

  // Video checks

  /** `max_file_size or MAX_VIDEO_FILE_SIZE` */
  function MaxSize(arg: Option<int>): (r: int)
    ensures arg.Some? && arg.value != 0 ==> r == arg.value
    ensures arg.None? || arg.value == 0 ==> r == MaxVideoSize
  {
    if arg.None? || arg.value == 0 then MaxVideoSize else arg.value
  }

  /** `_validate_video_file_format` */
  function CheckVideoFormat(ext: string): (r: Option<Raised>)
    ensures r.None? <==> Lower(ext) in VideoTypes
    ensures ext == "" ==> r == Some(Raised(VideoUpload, NoExtensionFound))
    ensures r.Some? && ext != "" ==> r == Some(Raised(UnsupportedVideoFormat, UnsupportedVideo(Lower(ext))))
  {
    var e := Lower(ext);
    if e == "" then Some(Raised(VideoUpload, NoExtensionFound))
    else if e !in VideoTypes then Some(Raised(UnsupportedVideoFormat, UnsupportedVideo(e)))
    else None
  }

  /** `_validate_video_file_size`: an empty file, or one over the limit. */
  function CheckVideoSize(size: nat, max: int): (r: Option<Raised>)
    ensures r.None? <==> 0 < size <= max
    ensures size == 0 ==> r == Some(Raised(VideoUpload, EmptyFile))
    ensures size > 0 && size > max ==> r.Some? && r.value.kind == VideoFileSize
  {
    if size == 0 then Some(Raised(VideoUpload, EmptyFile))
    else if size > max then
      Some(Raised(VideoFileSize, "파일 크기가 너무 큽니다. 현재 크기: " + Decimal(size / MiB) +
                                 "MB, 최대 허용 크기: " + Decimal(max / MiB) + "MB"))
    else None
  }

  /** `validate_video_file`: existence, format, size, then readability. */
  function ValidateVideoFile(path: string, maxArg: Option<int>, facts: FileFacts): (r: Option<Raised>)
    ensures r.None? <==>
      facts.present && PathSuffix(path) in VideoTypes && 0 < facts.size <= MaxSize(maxArg) && facts.readable
    ensures !facts.present ==> r == Some(Raised(VideoUpload, NotFound + path))
    ensures r.Some? ==> r.value.kind != Uploader
  {
    LowerIdempotent(Suffix(PathName(path)));
    if !facts.present then Some(Raised(VideoUpload, NotFound + path))
    else if CheckVideoFormat(PathSuffix(path)).Some? then CheckVideoFormat(PathSuffix(path))
    else if CheckVideoSize(facts.size, MaxSize(maxArg)).Some? then CheckVideoSize(facts.size, MaxSize(maxArg))
    else if !facts.readable then Some(Raised(VideoUpload, Unreadable))
    else None
  }

  /** A video exactly at the limit is accepted; one byte more is not. */
  lemma VideoSizeBoundary(max: int)
    requires max > 0
    ensures CheckVideoSize(max, max).None?
    ensures CheckVideoSize(max + 1, max).Some? && CheckVideoSize(max + 1, max).value.kind == VideoFileSize
  {
  }

  // Document and presentation checks

  function TooLarge(limit: nat): string {
    "파일 크기가 너무 큽니다. 최대 크기: " + Decimal(limit / MiB) + "MB"
  }

  /** `_validate_document_file` and `_validate_presentation_file`: the file
      exists, carries a listed extension and is within the limit. An
      empty file passes. */
  function CheckFile(path: string, facts: FileFacts, types: seq<string>, what: string, limit: nat): (r: Option<Raised>)
    ensures r.None? <==> facts.present && PathSuffix(path) in types && facts.size <= limit
    ensures r.Some? ==> r.value.kind == Uploader
    ensures !facts.present ==> r == Some(Raised(Uploader, NotFound + path))
    ensures facts.present && PathSuffix(path) !in types ==>
      r == Some(Raised(Uploader, "지원하지 않는 " + what + " 형식입니다. 지원 형식: " + Join(", ", types)))
  {
    if !facts.present then Some(Raised(Uploader, NotFound + path))
    else if PathSuffix(path) !in types then
      Some(Raised(Uploader, "지원하지 않는 " + what + " 형식입니다. 지원 형식: " + Join(", ", types)))
    else if facts.size > limit then Some(Raised(Uploader, TooLarge(limit)))
    else None
  }

  function ValidateDocument(path: string, facts: FileFacts): (r: Option<Raised>)
    ensures r.None? <==> facts.present && PathSuffix(path) in DocumentTypes && facts.size <= 100 * MiB
  {
    CheckFile(path, facts, DocumentTypes, "문서", MaxDocumentSize)
  }

  function ValidatePresentation(path: string, facts: FileFacts): (r: Option<Raised>)
    ensures r.None? <==> facts.present && PathSuffix(path) in PresentationTypes && facts.size <= 200 * MiB
  {
    CheckFile(path, facts, PresentationTypes, "프레젠테이션", MaxPresentationSize)
  }

  // Content types

  /** `_get_video_content_type` */
  function VideoContentType(path: string): (r: string)
    ensures Listed(VideoFormats, PathSuffix(path)) ==> (PathSuffix(path), r) in VideoFormats
    ensures !Listed(VideoFormats, PathSuffix(path)) ==> r == "video/mp4"
  {
    Lookup(VideoFormats, PathSuffix(path), "video/mp4")
  }

  /** `_get_document_content_type` */
  function DocumentContentType(path: string): (r: string)
    ensures Listed(DocumentMimes, PathSuffix(path)) ==> (PathSuffix(path), r) in DocumentMimes
    ensures !Listed(DocumentMimes, PathSuffix(path)) ==> r == S3Storage.OctetStream
  {
    Lookup(DocumentMimes, PathSuffix(path), S3Storage.OctetStream)
  }

  /** `_get_presentation_content_type` */
  function PresentationContentType(path: string): (r: string)
    ensures Listed(PresentationMimes, PathSuffix(path)) ==> (PathSuffix(path), r) in PresentationMimes
    ensures !Listed(PresentationMimes, PathSuffix(path)) ==> r == S3Storage.OctetStream
  {
    Lookup(PresentationMimes, PathSuffix(path), S3Storage.OctetStream)
  }

  /** A table's keys are distinct, so its entry for a key is unique. */
  predicate DistinctKeys(table: Table) {
    forall i, j :: 0 <= i < |table| && 0 <= j < |table| && table[i].0 == table[j].0 ==> i == j
  }

  lemma EntryUnique(table: Table, k: string, a: string, b: string)
    requires DistinctKeys(table) && (k, a) in table && (k, b) in table
    ensures a == b
  {
    var i :| 0 <= i < |table| && table[i] == (k, a);
    var j :| 0 <= j < |table| && table[j] == (k, b);
  }

  lemma VideoFormatsDistinct()
    ensures DistinctKeys(VideoFormats)
  {
  }

  /** The MIME type `validate_s3_uri` reports for a video URI is the one an
      upload of a file with that extension is stored with. */
  lemma UriTypeMatchesUpload(uri: string, path: string)
    requires ValidateS3Uri(uri).Success?
    requires PathSuffix(path) == ValidateS3Uri(uri).value.extension
    ensures VideoContentType(path) == ValidateS3Uri(uri).value.mimeType
  {
    var rep := ValidateS3Uri(uri).value;
    VideoTypesListed(rep.extension);
    VideoFormatsDistinct();
    EntryUnique(VideoFormats, rep.extension, VideoContentType(path), rep.mimeType);
  }

  // Uploads

  function Record(fileType: string, s: S3Storage.Stored): UploadRecord {
    UploadRecord(fileType, s.s3Url, s.httpsUrl, s.key, s.fileSize, s.originalFilename, s.contentType)
  }

  /** Stores the file and builds the record, or reports the store's error. */
  function Deposit(path: string, contentType: string, fileType: string, store: Store): (r: Result<UploadRecord>)
    ensures store(path, contentType).Failure? ==> r == Failure(StoreFailed + store(path, contentType).error)
    ensures store(path, contentType).Success? ==> r == Success(Record(fileType, store(path, contentType).value))
  {
    match store(path, contentType)
    case Success(s) => Success(Record(fileType, s))
    case Failure(e) => Failure(StoreFailed + e)
  }

  /** `upload_video`: every validation error is a `VideoUploadError` and is
      reported as a failed video upload; nothing is stored then. */
  function UploadVideo(path: string, validate: bool, maxArg: Option<int>, facts: FileFacts, store: Store): (r: Result<UploadRecord>)
    ensures validate && ValidateVideoFile(path, maxArg, facts).Some? ==>
      r == Failure(VideoFailed + ValidateVideoFile(path, maxArg, facts).value.message)
    ensures !validate || ValidateVideoFile(path, maxArg, facts).None? ==>
      r == Deposit(path, VideoContentType(path), "video", store)
  {
    if validate && ValidateVideoFile(path, maxArg, facts).Some? then
      Failure(VideoFailed + ValidateVideoFile(path, maxArg, facts).value.message)
    else Deposit(path, VideoContentType(path), "video", store)
  }

  /** `upload_document`: the validator's plain `FileUploaderError` falls to
      the catch-all and is reported as an unexpected error. */
  function UploadDocument(path: string, facts: FileFacts, store: Store): (r: Result<UploadRecord>)
    ensures ValidateDocument(path, facts).Some? ==>
      r == Failure(DocumentUnexpected + ValidateDocument(path, facts).value.message)
    ensures ValidateDocument(path, facts).None? ==> r == Deposit(path, DocumentContentType(path), "document", store)
  {
    match ValidateDocument(path, facts)
    case Some(e) => Failure(DocumentUnexpected + e.message)
    case None => Deposit(path, DocumentContentType(path), "document", store)
  }

  /** `upload_presentation`, shaped like `upload_document`. */
  function UploadPresentation(path: string, facts: FileFacts, store: Store): (r: Result<UploadRecord>)
    ensures ValidatePresentation(path, facts).Some? ==>
      r == Failure(PresentationUnexpected + ValidatePresentation(path, facts).value.message)
    ensures ValidatePresentation(path, facts).None? ==>
      r == Deposit(path, PresentationContentType(path), "presentation", store)
  {
    match ValidatePresentation(path, facts)
    case Some(e) => Failure(PresentationUnexpected + e.message)
    case None => Deposit(path, PresentationContentType(path), "presentation", store)
  }

  /** The upload `upload_file_auto` runs for a detected type. */
  function UploadAs(kind: string, path: string, facts: FileFacts, store: Store): (r: Result<UploadRecord>)
    ensures r.Success? ==> r.value.fileType == kind && kind != "unknown"
    ensures kind == "video" ==> r == UploadVideo(path, true, None, facts, store)
    ensures kind == "document" ==> r == UploadDocument(path, facts, store)
    ensures kind == "presentation" ==> r == UploadPresentation(path, facts, store)
    ensures kind !in ["video", "document", "presentation"] ==> r == Failure(UnsupportedKind + kind)
  {
    if kind == "video" then UploadVideo(path, true, None, facts, store)
    else if kind == "document" then UploadDocument(path, facts, store)
    else if kind == "presentation" then UploadPresentation(path, facts, store)
    else Failure(UnsupportedKind + kind)
  }

  /** `upload_file_auto`: the upload for the detected type with default
      video settings; an unknown type is refused, and every failure is
      re-raised under the automatic-upload prefix. */
  function UploadFileAuto(path: string, facts: FileFacts, store: Store): (r: Result<UploadRecord>)
    ensures r.Failure? ==> StartsWith(r.error, AutoFailed)
    ensures r.Success? ==> r.value.fileType == DetectFileType(path) && DetectFileType(path) != "unknown"
    ensures r.Success? <==> UploadAs(DetectFileType(path), path, facts, store).Success?
    ensures r.Failure? ==> r.error == AutoFailed + UploadAs(DetectFileType(path), path, facts, store).error
  {
    match UploadAs(DetectFileType(path), path, facts, store)
    case Success(rec) => Success(rec)
    case Failure(e) =>
      assert (AutoFailed + e)[..|AutoFailed|] == AutoFailed;
      Failure(AutoFailed + e)
  }

  /** A file of unknown type never reaches the store. */
  lemma UnknownNeverStored(path: string, facts: FileFacts, s1: Store, s2: Store)
    requires PathSuffix(path) !in VideoTypes + DocumentTypes + PresentationTypes
    ensures UploadFileAuto(path, facts, s1) == UploadFileAuto(path, facts, s2)
    ensures UploadFileAuto(path, facts, s1) == Failure(AutoFailed + (UnsupportedKind + "unknown"))
  {
    assert DetectFileType(path) == "unknown";
    assert |"unknown"| == 7 && |"video"| == 5 && |"document"| == 8 && |"presentation"| == 12;
    UnknownKindRefused(path, facts, s1, "unknown");
    UnknownKindRefused(path, facts, s2, "unknown");
  }

  lemma UnknownKindRefused(path: string, facts: FileFacts, store: Store, kind: string)
    requires DetectFileType(path) == kind && kind != "video" && kind != "document" && kind != "presentation"
    ensures UploadFileAuto(path, facts, store) == Failure(AutoFailed + (UnsupportedKind + kind))
  {
    assert kind !in ["video", "document", "presentation"];
    AutoFailure(path, facts, store, UnsupportedKind + kind);
  }

  /** The automatic upload fails with exactly the prefixed error of the
      upload for the detected kind. */
  lemma AutoFailure(path: string, facts: FileFacts, store: Store, e: string)
    requires UploadAs(DetectFileType(path), path, facts, store) == Failure(e)
    ensures UploadFileAuto(path, facts, store) == Failure(AutoFailed + e)
  {
  }

  /** A video that fails its checks never reaches the store either. */
  lemma InvalidVideoNeverStored(path: string, facts: FileFacts, s1: Store, s2: Store)
    requires DetectFileType(path) == "video"
    requires ValidateVideoFile(path, None, facts).Some?
    ensures UploadFileAuto(path, facts, s1) == UploadFileAuto(path, facts, s2)
    ensures UploadFileAuto(path, facts, s1).Failure?
  {
  }
}
