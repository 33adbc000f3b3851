/** The two Bedrock gateways (`src/llm/nova_lite_llm.py`,
    `src/llm/nova_pro_llm.py`): the input checks run before any model call,
    the file-type decision taken from the URI's extension, the messages
    sent, and how a failure is reported. The model itself is a parameter
    taking the model id and the messages to a reply text or an exception. */
module NovaGateway {
  import opened Wrappers
  import opened Text
  import opened Values

  /** `InvalidInputError`, `UnsupportedFileTypeError` and the
      `RuntimeError` every other failure is wrapped in. */
  datatype GatewayError =
    | InvalidInput(message: string)
    | UnsupportedFileType(message: string)
    | Runtime(message: string)

  datatype Outcome<T> = Ok(value: T) | Err(error: GatewayError)

  /** One part of a human message: text, or a video by S3 location. */
  datatype Part = TextPart(text: string) | VideoPart(uri: string)

  datatype Message = SystemMessage(content: string) | HumanMessage(parts: seq<Part>)

  /** The model: a model id and the messages to the reply's text, or the
      exception's message. */
  type Model = (string, seq<Message>) -> Result<string>

  /** An optional string argument is truthy: present and non-empty. */
  predicate Given(o: Option<string>) {
    o.Some? && o.value != ""
  }

  /** `not x or not x.strip()` */
  predicate Blank(o: Option<string>) {
    !Given(o) || IsBlank(o.value)
  }

  predicate HasS3Scheme(uri: string) {
    StartsWith(uri, "s3://") || StartsWith(uri, "https://s3")
  }

  const NothingToSend: string := "user_message 또는 s3_uri 중 하나는 반드시 제공되어야 합니다"
  const BlankUri: string := "S3 URI는 빈 문자열일 수 없습니다"
  const BadScheme: string := "올바른 S3 URI 형식이 아닙니다"
  const NoExtension: string := "S3 URI에 파일 확장자가 필요합니다"
  const LiteUnsupported: string := "지원되지 않는 파일 확장자: "
  const ProNeedsUri: string := "비디오 분석을 위해 S3 URI는 필수입니다"
  const ProUnsupported: string := "Nova Pro는 비디오 파일만 지원합니다. 현재 확장자: "
  const LiteWrap: string := "Nova Lite 모델 호출 중 오류 발생: "
  const ProWrap: string := "Nova Pro 모델 호출 중 오류 발생: "
  const LiteDefaultMessage: string := "이 파일을 분석해주세요."
  const ProDefaultMessage: string := "이 비디오를 분석하여 주요 내용, 장면, 음성 내용을 요약해주세요."
  const DefaultLiteModel: string := "amazon.nova-lite-v1:0"
  const DefaultProModel: string := "amazon.nova-pro-v1:0"

  const LiteDocument: seq<string> := ["txt", "md", "pdf", "docx", "doc", "rtf"]
  const LiteImage: seq<string> := ["jpg", "jpeg", "png", "gif", "bmp", "webp", "svg"]
  const LiteVideo: seq<string> := ["mp4", "mov", "avi", "wmv", "flv", "webm", "mkv"]
  const ProVideo: seq<string> := ["mp4", "mov", "avi", "wmv", "flv", "webm", "mkv", "m4v", "3gp", "ogv"]

  /** `s3_uri.lower().split('.')[-1] if '.' in s3_uri else ''`: the text
      after the URI's last '.', lower-cased. */
  function Extension(uri: string): (r: string)
    ensures '.' !in r
    ensures '.' !in uri ==> r == ""
    ensures '.' in uri ==> r == Lower(LastPart(uri, '.')) && |r| < |uri|
  {
    LowerKeepsNonLetter(uri, '.');
    LowerLastPart(uri, '.');
    if '.' in uri then LastPart(Lower(uri), '.') else ""
  }

  /** The extension of a name ending in "." and a dot-free word is that
      word, lower-cased, whatever comes before. */
  lemma ExtensionOf(prefix: string, ext: string)
    requires '.' !in ext
    ensures Extension(prefix + "." + ext) == Lower(ext)
  {
    var uri := prefix + "." + ext;
    assert uri[|prefix|] == '.';
    assert uri[|uri| - |ext|..] == ext;
    LastPartUnique(uri, '.', ext);
  }

  // Nova Lite

  /** `_determine_file_type` on the extension: the first list that holds it,
      in the order document, image, video. */
  function LiteFileType(ext: string): (r: Option<string>)
    ensures r == Some("document") <==> ext in LiteDocument
    ensures r == Some("image") <==> ext in LiteImage
    ensures r == Some("video") <==> ext in LiteVideo
    ensures r.None? <==> ext !in LiteDocument + LiteImage + LiteVideo
  {
    if ext in LiteDocument then Some("document")
    else if ext in LiteImage then Some("image")
    else if ext in LiteVideo then Some("video")
    else None
  }

  /** `_determine_file_type`: the kind, or `UnsupportedFileTypeError`
      naming the extension. */
  function DetermineFileType(uri: string): (r: Outcome<string>)
    ensures r.Ok? <==> Extension(uri) in LiteDocument + LiteImage + LiteVideo
    ensures r.Err? ==> r.error == UnsupportedFileType(LiteUnsupported + Extension(uri))
  {
    match LiteFileType(Extension(uri))
    case Some(kind) => Ok(kind)
    case None => Err(UnsupportedFileType(LiteUnsupported + Extension(uri)))
  }

  /** `_is_supported_file_type` */
  predicate LiteSupports(uri: string) {
    DetermineFileType(uri).Ok?
  }

  /** What the Lite checks demand of a URI that is passed at all. */
  predicate LiteAcceptsUri(uri: string) {
    !IsBlank(uri) && HasS3Scheme(uri) && '.' in uri && LiteSupports(uri)
  }

  /** `NovaLiteLLM._validate_input`: the first failing check, or nothing. */
  function ValidateLite(user: Option<string>, uri: Option<string>): (r: Option<GatewayError>)
    ensures r.None? <==> (!Blank(user) || !Blank(uri)) && (uri.Some? ==> LiteAcceptsUri(uri.value))
    ensures Blank(user) && Blank(uri) ==> r == Some(InvalidInput(NothingToSend))
    ensures !Blank(user) && uri.Some? && IsBlank(uri.value) ==> r == Some(InvalidInput(BlankUri))
    ensures r.Some? ==> !r.value.Runtime?
    ensures r.Some? && r.value.UnsupportedFileType? ==>
      uri.Some? && r.value.message == LiteUnsupported + Extension(uri.value)
  {
    if Blank(user) && Blank(uri) then Some(InvalidInput(NothingToSend))
    else if uri.None? then None
    else if IsBlank(uri.value) then Some(InvalidInput(BlankUri))
    else if !HasS3Scheme(uri.value) then Some(InvalidInput(BadScheme))
    else if '.' !in uri.value then Some(InvalidInput(NoExtension))
    else if !LiteSupports(uri.value) then Some(UnsupportedFileType(LiteUnsupported + Extension(uri.value)))
    else None
  }

  /** The arguments of `NovaLiteLLM.invoke`; `prompt` and `systemPrompt`
      are the legacy names. */
  datatype LiteCall = LiteCall(
    userMessage: Option<string>,
    systemMessage: Option<string>,
    s3Uri: Option<string>,
    prompt: Option<string>,
    systemPrompt: Option<string>)

  /** A legacy argument stands in only for an absent new one. */
  function Mapped(current: Option<string>, legacy: Option<string>): (r: Option<string>)
    ensures current.Some? ==> r == current
    ensures current.None? ==> r == legacy
  {
    if legacy.Some? && current.None? then legacy else current
  }

  function LiteUser(call: LiteCall): Option<string> {
    Mapped(call.userMessage, call.prompt)
  }

  function LiteSystem(call: LiteCall): Option<string> {
    Mapped(call.systemMessage, call.systemPrompt)
  }

  /** The system message opening every message list: present exactly when
      the system text is not blank. */
  function Preamble(system: Option<string>): (r: seq<Message>)
    ensures |r| <= 1
    ensures |r| == 1 <==> !Blank(system)
    ensures |r| == 1 ==> r[0] == SystemMessage(system.value)
  {
    if Given(system) && !IsBlank(system.value) then [SystemMessage(system.value)] else []
  }

  /** The user text sent by Lite: the user message when truthy, otherwise
      the default request to analyse the file. The source sets the default
      only when a URI is given; validation has already refused a call with
      neither, so both readings agree on every call that gets this far. */
  function LiteText(user: Option<string>): (r: string)
    ensures Given(user) ==> r == user.value
    ensures !Given(user) ==> r == LiteDefaultMessage
  {
    if Given(user) then user.value else LiteDefaultMessage
  }

  /** `_build_text_messages` or, with a URI, `_build_multimodal_messages`:
      the preamble, then one human message, always last. */
  function LiteMessages(call: LiteCall): (r: seq<Message>)
    ensures |r| >= 1 && r[..|r| - 1] == Preamble(LiteSystem(call))
    ensures !Given(call.s3Uri) ==> r[|r| - 1] == HumanMessage([TextPart(LiteText(LiteUser(call)))])
    ensures Given(call.s3Uri) ==>
      r[|r| - 1] == HumanMessage([TextPart(LiteText(LiteUser(call)) + "\n\nS3 URI: " + call.s3Uri.value)])
  {
    var text := LiteText(LiteUser(call));
    var human :=
      if Given(call.s3Uri) then HumanMessage([TextPart(text + "\n\nS3 URI: " + call.s3Uri.value)])
      else HumanMessage([TextPart(text)]);
    Preamble(LiteSystem(call)) + [human]
  }

  /** `NovaLiteLLM.invoke`: validation errors unchanged, the model's reply,
      or the model's failure wrapped as a runtime error. */
  function LiteInvoke(call: LiteCall, modelId: string, model: Model): (r: Outcome<string>)
    ensures ValidateLite(LiteUser(call), call.s3Uri).Some? ==>
      r == Err(ValidateLite(LiteUser(call), call.s3Uri).value)
    ensures ValidateLite(LiteUser(call), call.s3Uri).None? ==>
      (r.Ok? <==> model(modelId, LiteMessages(call)).Success?)
    ensures r.Ok? ==> r.value == model(modelId, LiteMessages(call)).value
    ensures r.Err? && r.error.Runtime? ==>
      r.error.message == LiteWrap + model(modelId, LiteMessages(call)).error
  {
    match ValidateLite(LiteUser(call), call.s3Uri)
    case Some(e) => Err(e)
    case None =>
      match model(modelId, LiteMessages(call))
      case Success(content) => Ok(content)
      case Failure(e) => Err(Runtime(LiteWrap + e))
  }

  /** A refused call never reaches the model: any two models give the same
      error. */
  lemma LiteRefusalSkipsModel(call: LiteCall, id: string, m1: Model, m2: Model)
    requires !ValidateLite(LiteUser(call), call.s3Uri).None?
    ensures LiteInvoke(call, id, m1) == LiteInvoke(call, id, m2)
    ensures LiteInvoke(call, id, m1).Err? && !LiteInvoke(call, id, m1).error.Runtime?
  {
  }

  /** Given the new argument names, the legacy ones change nothing. */
  lemma LiteLegacyIgnored(call: LiteCall, prompt: Option<string>, systemPrompt: Option<string>, id: string, m: Model)
    requires call.userMessage.Some? && call.systemMessage.Some?
    ensures LiteInvoke(call.(prompt := prompt, systemPrompt := systemPrompt), id, m) == LiteInvoke(call, id, m)
  {
    var other := call.(prompt := prompt, systemPrompt := systemPrompt);
    assert LiteUser(other) == LiteUser(call) && LiteSystem(other) == LiteSystem(call);
    assert LiteMessages(other) == LiteMessages(call);
  }

  /** With the new names absent, the legacy ones act exactly as the new ones
      would. */
  lemma LiteLegacyStandsIn(call: LiteCall, id: string, m: Model)
    requires call.userMessage.None? && call.systemMessage.None?
    ensures LiteInvoke(call, id, m) ==
      LiteInvoke(call.(userMessage := call.prompt, systemMessage := call.systemPrompt, prompt := None, systemPrompt := None), id, m)
  {
    var other := call.(userMessage := call.prompt, systemMessage := call.systemPrompt, prompt := None, systemPrompt := None);
    assert LiteUser(other) == LiteUser(call) && LiteSystem(other) == LiteSystem(call);
    assert LiteMessages(other) == LiteMessages(call);
  }

  /** A call with only a URI sends the default request about that file. */
  lemma LiteUriOnly(uri: string, id: string, m: Model)
    requires LiteAcceptsUri(uri)
    ensures var call := LiteCall(None, None, Some(uri), None, None);
      ValidateLite(LiteUser(call), call.s3Uri).None? &&
      LiteMessages(call) == [HumanMessage([TextPart(LiteDefaultMessage + "\n\nS3 URI: " + uri)])]
  {
    assert uri != "";
    UriOnlyMessages(uri);
  }

  /** With no user text, the one message asks about the file at the URI. */
  lemma UriOnlyMessages(uri: string)
    requires uri != ""
    ensures LiteMessages(LiteCall(None, None, Some(uri), None, None)) ==
      [HumanMessage([TextPart(LiteDefaultMessage + "\n\nS3 URI: " + uri)])]
  {
    var r := LiteMessages(LiteCall(None, None, Some(uri), None, None));
    assert |Preamble(None)| == 0;
    assert |r| == 1;
  }

  /** The kinds Lite assigns are decided by the lists alone: no extension is
      in two of them, so their order does not matter. */
  lemma LiteListsDisjoint(ext: string)
    ensures !(ext in LiteDocument && ext in LiteImage)
    ensures !(ext in LiteDocument && ext in LiteVideo)
    ensures !(ext in LiteImage && ext in LiteVideo)
  {
  }

  // Nova Pro

  /** `NovaProLLM.__init__`: the argument when given; otherwise the
      configured id, or the default when the configuration has none or
      cannot be read. */
  function ProModelId(arg: Option<string>, configured: Option<string>): (r: string)
    ensures arg.Some? ==> r == arg.value
    ensures arg.None? && configured.Some? ==> r == configured.value
    ensures arg.None? && configured.None? ==> r == DefaultProModel
  {
    match arg
    case Some(id) => id
    case None => configured.GetOr(DefaultProModel)
  }

  /** `_is_video_file` */
  predicate IsVideoFile(uri: string) {
    Extension(uri) in ProVideo
  }

  /** `NovaProLLM._validate_input`: the first failing check, or nothing. */
  function ValidatePro(uri: Option<string>): (r: Option<GatewayError>)
    ensures r.None? <==> !Blank(uri) && HasS3Scheme(uri.value) && '.' in uri.value && IsVideoFile(uri.value)
    ensures Blank(uri) ==> r == Some(InvalidInput(ProNeedsUri))
    ensures r.Some? ==> !r.value.Runtime?
    ensures r.Some? && r.value.UnsupportedFileType? ==>
      !Blank(uri) && '.' in uri.value && r.value.message == ProUnsupported + Extension(uri.value)
  {
    if Blank(uri) then Some(InvalidInput(ProNeedsUri))
    else if !HasS3Scheme(uri.value) then Some(InvalidInput(BadScheme))
    else if '.' !in uri.value then Some(InvalidInput(NoExtension))
    else if !IsVideoFile(uri.value) then Some(UnsupportedFileType(ProUnsupported + Extension(uri.value)))
    else None
  }

  /** The arguments of `NovaProLLM.invoke`; `systemPrompt` is the legacy
      name, `modelId` overrides the instance's model. */
  datatype ProCall = ProCall(
    s3Uri: Option<string>,
    userMessage: Option<string>,
    systemMessage: Option<string>,
    systemPrompt: Option<string>,
    modelId: Option<string>)

  /** The model a Pro call uses: the override when truthy. */
  function ProModelFor(call: ProCall, instanceModel: string): (r: string)
    ensures Given(call.modelId) ==> r == call.modelId.value
    ensures !Given(call.modelId) ==> r == instanceModel
  {
    if Given(call.modelId) then call.modelId.value else instanceModel
  }

  /** `_build_video_analysis_messages`: the preamble, then one human
      message holding the request text and the video. */
  function ProMessages(call: ProCall, uri: string): (r: seq<Message>)
    ensures |r| >= 1 && r[..|r| - 1] == Preamble(Mapped(call.systemMessage, call.systemPrompt))
    ensures Given(call.userMessage) ==> r[|r| - 1] == HumanMessage([TextPart(call.userMessage.value), VideoPart(uri)])
    ensures !Given(call.userMessage) ==> r[|r| - 1] == HumanMessage([TextPart(ProDefaultMessage), VideoPart(uri)])
  {
    var text := if Given(call.userMessage) then call.userMessage.value else ProDefaultMessage;
    Preamble(Mapped(call.systemMessage, call.systemPrompt)) + [HumanMessage([TextPart(text), VideoPart(uri)])]
  }

  /** The record a successful Pro call returns. */
  function ProRecord(content: string, uri: string, modelId: string): (r: Dict)
    ensures Keys(r) == ["analysis_result", "s3_uri", "model_id", "analysis_type"]
    ensures r[0].1 == VStr(content) && r[1].1 == VStr(uri) && r[2].1 == VStr(modelId)
    ensures r[3].1 == VStr("video_analysis")
  {
    [("analysis_result", VStr(content)), ("s3_uri", VStr(uri)), ("model_id", VStr(modelId)),
     ("analysis_type", VStr("video_analysis"))]
  }

  /** `NovaProLLM.invoke`: validation errors unchanged; otherwise the
      model's reply in the result record, or its failure wrapped as a
      runtime error. */
  function ProInvoke(call: ProCall, instanceModel: string, model: Model): (r: Outcome<Dict>)
    ensures ValidatePro(call.s3Uri).Some? ==> r == Err(ValidatePro(call.s3Uri).value)
    ensures ValidatePro(call.s3Uri).None? ==>
      var reply := model(ProModelFor(call, instanceModel), ProMessages(call, call.s3Uri.value));
      (reply.Success? ==> r == Ok(ProRecord(reply.value, call.s3Uri.value, ProModelFor(call, instanceModel)))) &&
      (reply.Failure? ==> r == Err(Runtime(ProWrap + reply.error)))
  {
    match ValidatePro(call.s3Uri)
    case Some(e) => Err(e)
    case None =>
      var uri := call.s3Uri.value;
      var id := ProModelFor(call, instanceModel);
      match model(id, ProMessages(call, uri))
      case Success(content) => Ok(ProRecord(content, uri, id))
      case Failure(e) => Err(Runtime(ProWrap + e))
  }

  /** A refused Pro call never reaches the model. */
  lemma ProRefusalSkipsModel(call: ProCall, id: string, m1: Model, m2: Model)
    requires ValidatePro(call.s3Uri).Some?
    ensures ProInvoke(call, id, m1) == ProInvoke(call, id, m2)
    ensures ProInvoke(call, id, m1).Err? && !ProInvoke(call, id, m1).error.Runtime?
  {
  }

  /** Pro takes every video extension Lite takes, and exactly three more. */
  lemma ProVideoExtendsLite(ext: string)
    ensures ext in LiteVideo ==> ext in ProVideo
    ensures ext in ProVideo && ext !in LiteVideo <==> ext in ["m4v", "3gp", "ogv"]
  {
  }

  /** Appending text keeps a URI's scheme. */
  lemma SchemeKept(uri: string, more: string)
    requires HasS3Scheme(uri)
    ensures HasS3Scheme(uri + more)
  {
    assert (uri + more)[..|uri|] == uri;
    if StartsWith(uri, "s3://") {
      assert (uri + more)[..5] == uri[..5];
    } else {
      assert (uri + more)[..10] == uri[..10];
    }
  }

  /** A URI built as scheme-prefixed name, '.', extension passes the
      scheme, blank and dot checks of both gateways and carries that
      extension. */
  lemma UriParts(name: string, ext: string)
    requires HasS3Scheme(name) && '.' !in ext
    ensures var uri := name + "." + ext;
      Extension(uri) == Lower(ext) && HasS3Scheme(uri) && '.' in uri && !IsBlank(uri)
  {
    ExtensionOf(name, ext);
    DotNotBlank(name, ext);
  }

  lemma DotNotBlank(name: string, ext: string)
    requires HasS3Scheme(name)
    ensures HasS3Scheme(name + "." + ext) && '.' in name + "." + ext && !IsBlank(name + "." + ext)
  {
    var uri := name + "." + ext;
    SchemeKept(name, "." + ext);
    assert uri == name + ("." + ext);
    assert uri[|name|] == '.';
    NotBlank(uri, |name|);
  }

  /** A well-formed URI whose extension only Pro lists: Pro accepts it,
      Lite refuses it as unsupported. */
  lemma OnlyProAccepts(uri: string)
    requires HasS3Scheme(uri) && '.' in uri && !IsBlank(uri)
    requires Extension(uri) in ProVideo && Extension(uri) !in LiteDocument + LiteImage + LiteVideo
    ensures ValidatePro(Some(uri)).None?
    ensures ValidateLite(None, Some(uri)) == Some(UnsupportedFileType(LiteUnsupported + Extension(uri)))
  {
    assert !Blank(Some(uri)) by {
      assert uri != "";
    }
    assert IsVideoFile(uri);
    assert !LiteSupports(uri);
  }

  lemma LowerM4v()
    ensures Lower("m4v") == "m4v"
  {
    LowerKeepsLowercase("m4v");
  }

  lemma M4vListed()
    ensures "m4v" in ProVideo && "m4v" !in LiteDocument + LiteImage + LiteVideo
  {
    ProVideoExtendsLite("m4v");
  }

  /** An ".m4v" file: Pro analyses it, Lite refuses it as unsupported. */
  lemma M4vOnlyForPro(name: string)
    requires HasS3Scheme(name)
    ensures ValidatePro(Some(name + "." + "m4v")).None?
    ensures ValidateLite(None, Some(name + "." + "m4v")) == Some(UnsupportedFileType(LiteUnsupported + "m4v"))
  {
    LowerM4v();
    UriParts(name, "m4v");
    M4vListed();
    OnlyProAccepts(name + "." + "m4v");
  }
}
