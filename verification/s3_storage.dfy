/** Object keys, URLs and the upload record of the S3 store
    (`src/uploads/s3_storage.py`). The S3 client, the file system, the
    UUID generator and the MIME guesser are parameters: the client's
    answer to the upload, whether the file exists, its size, the UUID and
    the guessed type. */
module S3Storage {
  import opened Wrappers
  import opened Text

  /** What the S3 client did with the upload request. */
  datatype ClientAnswer =
    | Uploaded
    | ClientError(code: string, text: string)
    | NoCredentials
    | Crashed(text: string)

  /** The record `upload_file` returns; `success` is always true. */
  datatype Stored = Stored(
    key: string,
    s3Url: string,
    httpsUrl: string,
    bucket: string,
    contentType: string,
    fileSize: nat,
    originalFilename: string)

  const VideoExtensions: seq<string> := [".mp4", ".mov", ".avi", ".wmv", ".webm", ".mkv", ".flv", ".m4v", ".3gp", ".ogv"]
  const DocumentExtensions: seq<string> := [".doc", ".docx", ".txt", ".rtf"]
  const PresentationExtensions: seq<string> := [".pdf", ".jpg", ".jpeg", ".png", ".gif", ".bmp", ".tiff", ".webp"]
  const OctetStream: string := "application/octet-stream"
  const Unexpected: string := "파일 업로드 중 예상치 못한 오류: "
  const FileMissing: string := "파일을 찾을 수 없습니다: "
  const NoCredentialsMessage: string := "AWS 자격 증명을 찾을 수 없습니다"

  /** The key folder for a suffix, compared lower-cased. */
  function Folder(suffix: string): (r: string)
    ensures r == "videos" <==> Lower(suffix) in VideoExtensions
    ensures r == "documents" <==> Lower(suffix) in DocumentExtensions
    ensures r == "presentations" <==> Lower(suffix) in PresentationExtensions
    ensures r == "others" <==> Lower(suffix) !in VideoExtensions + DocumentExtensions + PresentationExtensions
    ensures '/' !in r
  {
    var ext := Lower(suffix);
    if ext in VideoExtensions then "videos"
    else if ext in DocumentExtensions then "documents"
    else if ext in PresentationExtensions then "presentations"
    else "others"
  }

  /** `_generate_s3_key`: the folder, then the UUID and the file's name.
      The folder is the key's first segment; with a UUID free of '/' (as
      `uuid4` text always is) the last segment is UUID, '_', file name. */
  function GenerateKey(path: string, uuid: string): (r: string)
    ensures FirstPart(r, '/') == Folder(Suffix(PathName(path)))
    ensures '/' !in uuid ==> PathName(r) == uuid + "_" + PathName(path)
  {
    var folder := Folder(Suffix(PathName(path)));
    KeySegments(folder, uuid, PathName(path));
    folder + "/" + uuid + "_" + PathName(path)
  }

  lemma KeySegments(folder: string, uuid: string, name: string)
    requires '/' !in folder && '/' !in name
    ensures FirstPart(folder + "/" + uuid + "_" + name, '/') == folder
    ensures '/' !in uuid ==> PathName(folder + "/" + uuid + "_" + name) == uuid + "_" + name
  {
    KeyFolder(folder, uuid + "_" + name);
    KeyRegroup(folder, uuid, name);
    if '/' !in uuid {
      KeyName(folder, uuid, name);
    }
  }

  /** The first segment of a key is its folder. */
  lemma KeyFolder(folder: string, tail: string)
    requires '/' !in folder
    ensures FirstPart(folder + "/" + tail, '/') == folder
  {
    var key := folder + "/" + tail;
    assert key[|folder|] == '/' && key[..|folder|] == folder;
  }

  /** The last segment of a key is its UUID and file name. */
  lemma KeyName(folder: string, uuid: string, name: string)
    requires '/' !in uuid && '/' !in name
    ensures PathName(folder + "/" + uuid + "_" + name) == uuid + "_" + name
  {
    KeyTail(uuid, name);
    KeyRegroup(folder, uuid, name);
    PathNameAfterSlash(folder, uuid + "_" + name);
  }

  /** UUID, '_' and a name without '/' make a component. */
  lemma KeyTail(uuid: string, name: string)
    requires '/' !in uuid && '/' !in name
    ensures '/' !in uuid + "_" + name && uuid + "_" + name != "" && uuid + "_" + name != "."
  {
    var tail := uuid + "_" + name;
    assert tail == uuid + ("_" + name);
    assert tail[|uuid|] == '_';
  }

  /** Where the key's pieces are grouped does not matter. */
  lemma KeyRegroup(folder: string, uuid: string, name: string)
    ensures folder + "/" + uuid + "_" + name == folder + "/" + (uuid + "_" + name)
  {
  }

  /** A trailing '/' on the local path changes neither the folder nor the
      name in the key. */
  lemma KeyIgnoresTrailingSlash(path: string, uuid: string)
    ensures GenerateKey(path + "/", uuid) == GenerateKey(path, uuid)
  {
    PathNameTrailingSlash(path);
  }

  function S3Url(bucket: string, key: string): string {
    "s3://" + bucket + "/" + key
  }

  function HttpsUrl(bucket: string, key: string): string {
    "https://" + bucket + ".s3.amazonaws.com/" + key
  }

  /** Reads the bucket and key back out of an "s3://bucket/key" URL. */
  function ParseS3Url(url: string): (r: Option<(string, string)>)
    ensures r.Some? ==> S3Url(r.value.0, r.value.1) == url && '/' !in r.value.0
  {
    if |url| >= 5 && url[..5] == "s3://" then
      var rest := url[5..];
      var k := Find(rest, '/');
      if k == -1 then None
      else
        assert url == "s3://" + rest[..k] + "/" + rest[k + 1..];
        Some((rest[..k], rest[k + 1..]))
    else None
  }

  /** The S3 URL names the bucket and key it was built from, for any bucket
      name without '/'. */
  lemma S3UrlRoundTrip(bucket: string, key: string)
    requires '/' !in bucket
    ensures ParseS3Url(S3Url(bucket, key)) == Some((bucket, key))
  {
    var url := S3Url(bucket, key);
    var rest := url[5..];
    assert rest == bucket + "/" + key;
    assert rest[|bucket|] == '/' && rest[..|bucket|] == bucket;
    assert rest[|bucket| + 1..] == key;
  }

  /** The content type an upload is stored with: the caller's, else the
      guess when it is a non-empty type, else octet-stream. */
  function ContentType(given: Option<string>, guess: Option<string>): (r: string)
    ensures given.Some? ==> r == given.value
    ensures given.None? && guess.Some? && guess.value != "" ==> r == guess.value
    ensures given.None? && (guess.None? || guess.value == "") ==> r == OctetStream
  {
    match given
    case Some(t) => t
    case None => if guess.Some? && guess.value != "" then guess.value else OctetStream
  }

  /** `upload_file`. A missing file raises the store's own error inside
      the `try`, which the catch-all then wraps a second time. */
  function UploadFile(bucket: string, path: string, key: Option<string>, contentType: Option<string>,
                      present: bool, uuid: string, guess: Option<string>, size: nat,
                      client: ClientAnswer): (r: Result<Stored>)
    ensures r.Success? <==> present && client.Uploaded?
    ensures !present ==> r == Failure(Unexpected + FileMissing + path)
    ensures present && client.ClientError? ==>
      r == Failure("S3 업로드 실패 (" + client.code + "): " + client.text)
    ensures present && client.NoCredentials? ==> r == Failure(NoCredentialsMessage)
    ensures present && client.Crashed? ==> r == Failure(Unexpected + client.text)
    ensures r.Success? ==>
      var k := if key.Some? then key.value else GenerateKey(path, uuid);
      r.value.key == k && r.value.s3Url == S3Url(bucket, k) && r.value.httpsUrl == HttpsUrl(bucket, k) &&
      r.value.bucket == bucket && r.value.contentType == ContentType(contentType, guess) &&
      r.value.fileSize == size && r.value.originalFilename == PathName(path)
  {
    if !present then Failure(Unexpected + FileMissing + path)
    else
      var k := if key.Some? then key.value else GenerateKey(path, uuid);
      match client
      case Uploaded =>
        Success(Stored(k, S3Url(bucket, k), HttpsUrl(bucket, k), bucket, ContentType(contentType, guess),
                       size, PathName(path)))
      case ClientError(code, text) => Failure("S3 업로드 실패 (" + code + "): " + text)
      case NoCredentials => Failure(NoCredentialsMessage)
      case Crashed(text) => Failure(Unexpected + text)
  }

  /** A caller's key is used as given: the UUID plays no part. */
  lemma GivenKeyUsed(bucket: string, path: string, key: string, ct: Option<string>, guess: Option<string>,
                     size: nat, u1: string, u2: string)
    ensures UploadFile(bucket, path, Some(key), ct, true, u1, guess, size, Uploaded) ==
            UploadFile(bucket, path, Some(key), ct, true, u2, guess, size, Uploaded)
    ensures UploadFile(bucket, path, Some(key), ct, true, u1, guess, size, Uploaded).value.key == key
  {
  }

  /** A stored upload's S3 URL leads back to its bucket and key. */
  lemma StoredUrlNamesKey(bucket: string, path: string, key: Option<string>, ct: Option<string>,
                          uuid: string, guess: Option<string>, size: nat)
    requires '/' !in bucket
    ensures var r := UploadFile(bucket, path, key, ct, true, uuid, guess, size, Uploaded);
      ParseS3Url(r.value.s3Url) == Some((bucket, r.value.key))
  {
    var r := UploadFile(bucket, path, key, ct, true, uuid, guess, size, Uploaded);
    S3UrlRoundTrip(bucket, r.value.key);
  }
}
