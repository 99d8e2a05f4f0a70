/** The tool server (qrcode_mcp_server.py): the argument checks and delegation
    of the `generate_qr_code` tool, and the command-line handling that picks
    the transport. */
module QrCodeMcpServer {
  import opened Wrappers
  import opened PyStr
  import opened QrCodeUtils
  import DataUrlScheme

  const TextEmptyMessage := "Text content cannot be empty"
  const BoxSizeMessage := "box_size must be between 1 and 50"
  const BorderMessage := "border must be between 0 and 20"
  const FailurePrefix := "Failed to generate QR code: "

  const MinBoxSize := 1
  const MaxBoxSize := 50
  const MinBorder := 0
  const MaxBorder := 20

  /** The tool's image format, and the MIME type it reports for it. */
  const ToolImageFormat := "JPEG"
  const ToolMimeType := "image/jpeg"

  /** `ValueError` from the argument checks, `RuntimeError` from anything
      raised while encoding. */
  datatype ToolError = ValueError(message: string) | RuntimeError(message: string)

  /** The protocol's image content record; `kind` is its `type` field. */
  datatype ImageContent = ImageContent(kind: string, data: string, mimeType: string)

  /** The outcome of the guard clauses: the first failing check's message, or
      the exact arguments the encoder wrapper is called with. */
  datatype Checked = Rejected(message: string) | Delegate(request: QrRequest)

  /** The guard clauses of `generate_qr_code`, in their order: text, box size, border. */
  function CheckToolArguments(
    text: string,
    boxSize: int := 10,
    border: int := 4,
    fillColor: string := "black",
    backColor: string := "white"): (c: Checked)
    ensures c == Rejected(TextEmptyMessage) <==> IsBlank(text)
    ensures c == Rejected(BoxSizeMessage) <==> !IsBlank(text) && !(MinBoxSize <= boxSize <= MaxBoxSize)
    ensures c == Rejected(BorderMessage)
        <==> !IsBlank(text) && MinBoxSize <= boxSize <= MaxBoxSize && !(MinBorder <= border <= MaxBorder)
    ensures c.Delegate?
        <==> !IsBlank(text) && MinBoxSize <= boxSize <= MaxBoxSize && MinBorder <= border <= MaxBorder
    ensures c.Delegate? ==> c.request == QrRequest(text, M, boxSize, border, fillColor, backColor, ToolImageFormat)
  {
    if IsEmptyOrBlank(text) then
      Rejected(TextEmptyMessage)
    else if !(MinBoxSize <= boxSize <= MaxBoxSize) then
      Rejected(BoxSizeMessage)
    else if !(MinBorder <= border <= MaxBorder) then
      Rejected(BorderMessage)
    else
      Delegate(QrRequest(text, M, boxSize, border, fillColor, backColor, ToolImageFormat))
  }

  /** A reference reading of a guard-clause sequence: the message of the first
      check that fails, if any does. */
  function FirstFailure(checks: seq<(bool, string)>): (r: Option<string>)
    ensures r.Some? <==> exists i :: 0 <= i < |checks| && !checks[i].0
    ensures r.Some? ==> exists i ::
      && 0 <= i < |checks|
      && !checks[i].0
      && r.value == checks[i].1
      && forall j :: 0 <= j < i ==> checks[j].0
  {
    if checks == [] then None
    else if !checks[0].0 then Some(checks[0].1)
    else
      var r := FirstFailure(checks[1..]);
      assert forall i :: 1 <= i < |checks| ==> checks[i] == checks[1..][i - 1];
      if r.Some? then
        var i :| 0 <= i < |checks| - 1 && !checks[1..][i].0 && r.value == checks[1..][i].1
          && forall j :: 0 <= j < i ==> checks[1..][j].0;
        assert forall j :: 0 <= j < i + 1 ==> checks[j].0;
        r
      else
        r
  }

  /** The checks of `generate_qr_code` as a list, in the order the source runs them. */
  function ToolChecks(text: string, boxSize: int, border: int): seq<(bool, string)> {
    [(!IsEmptyOrBlank(text), TextEmptyMessage),
     (MinBoxSize <= boxSize <= MaxBoxSize, BoxSizeMessage),
     (MinBorder <= border <= MaxBorder, BorderMessage)]
  }

  /** The error reported is that of the first failing check in source order,
      and the call is delegated exactly when no check fails. */
  lemma CheckOrderIsSourceOrder(text: string, boxSize: int, border: int, fillColor: string, backColor: string)
    ensures CheckToolArguments(text, boxSize, border, fillColor, backColor).Rejected?
        <==> FirstFailure(ToolChecks(text, boxSize, border)).Some?
    ensures CheckToolArguments(text, boxSize, border, fillColor, backColor).Rejected? ==>
      FirstFailure(ToolChecks(text, boxSize, border))
        == Some(CheckToolArguments(text, boxSize, border, fillColor, backColor).message)
  {
    var checks := ToolChecks(text, boxSize, border);
    var fromBox := checks[1..];
    var fromBorder := fromBox[1..];
    assert fromBorder == [checks[2]] && fromBorder[1..] == [];
    assert FirstFailure(fromBorder) == if !checks[2].0 then Some(BorderMessage) else None;
    assert FirstFailure(fromBox) == if !checks[1].0 then Some(BoxSizeMessage) else FirstFailure(fromBorder);
    assert FirstFailure(checks) == if !checks[0].0 then Some(TextEmptyMessage) else FirstFailure(fromBox);
  }

  /** `generate_qr_code`: a failing check raises its `ValueError`; otherwise the
      encoder wrapper is called with JPEG output, its base64 text becomes the
      image content, and anything it raises becomes a `RuntimeError` whose
      message starts with "Failed to generate QR code: ". */
  function GenerateQrCode(
    library: QrLibrary,
    text: string,
    boxSize: int := 10,
    border: int := 4,
    fillColor: string := "black",
    backColor: string := "white"): (r: Result<ImageContent, ToolError>)
    ensures var c := CheckToolArguments(text, boxSize, border, fillColor, backColor);
      && (r.Failure? && r.error.ValueError? <==> c.Rejected?)
      && (c.Rejected? ==> r == Failure(ValueError(c.message)))
    ensures var request := QrRequest(text, M, boxSize, border, fillColor, backColor, ToolImageFormat);
      r.Success? ==>
        && r.value.kind == "image"
        && r.value.mimeType == ToolMimeType
        && CheckToolArguments(text, boxSize, border, fillColor, backColor).Delegate?
        && library(request) == Encoded(r.value.data)
    ensures var request := QrRequest(text, M, boxSize, border, fillColor, backColor, ToolImageFormat);
      r.Failure? && r.error.RuntimeError? ==>
        && CheckToolArguments(text, boxSize, border, fillColor, backColor).Delegate?
        && library(request).Raised?
        && r.error.message == FailurePrefix + ProcessingPrefix + library(request).message
  {
    match CheckToolArguments(text, boxSize, border, fillColor, backColor)
    case Rejected(m) => Failure(ValueError(m))
    case Delegate(q) =>
      match TextToQrBase64(library, q.text, q.errorCorrection, q.boxSize, q.border, q.fillColor, q.backColor, q.imageFormat)
      case Success(b) => Success(ImageContent("image", b, ToolMimeType))
      case Failure(e) => Failure(RuntimeError(FailurePrefix + e.message))
  }

  /** No encoder call happens when a check fails: the result is the same
      whatever the encoder would have done. */
  lemma RejectionSkipsEncoder(
    library1: QrLibrary, library2: QrLibrary, text: string, boxSize: int, border: int,
    fillColor: string, backColor: string)
    requires CheckToolArguments(text, boxSize, border, fillColor, backColor).Rejected?
    ensures GenerateQrCode(library1, text, boxSize, border, fillColor, backColor)
         == GenerateQrCode(library2, text, boxSize, border, fillColor, backColor)
  {
  }

  /** When the checks pass, the tool succeeds exactly when the encoder does. */
  lemma AcceptedCallSucceedsIffEncoderDoes(
    library: QrLibrary, text: string, boxSize: int, border: int, fillColor: string, backColor: string)
    ensures var request := QrRequest(text, M, boxSize, border, fillColor, backColor, ToolImageFormat);
      CheckToolArguments(text, boxSize, border, fillColor, backColor).Delegate? ==>
        (GenerateQrCode(library, text, boxSize, border, fillColor, backColor).Success? <==> library(request).Encoded?)
  {
  }

  /** The MIME type every successful call reports (see `GenerateQrCode`) is
      the one the data URL formatter derives from the JPEG tag, so the image
      embeds as a data URL that reads back as that type with the same payload. */
  lemma ToolImageEmbedsAsDataUrl(image: ImageContent)
    requires image.mimeType == ToolMimeType
    ensures DataUrlScheme.Parse(GetDataUrl(image.data, ToolImageFormat))
         == Some(DataUrlScheme.DataUrlParts(image.mimeType, true, image.data))
  {
    assert Lower(ToolImageFormat) == "jpeg";
    assert MimeType(ToolImageFormat) == ToolMimeType == image.mimeType;
    DataUrlParses(image.data, ToolImageFormat);
  }

  // Command line

  const HttpFlag := "--http"

  /** The defaults the flag parser declares for `--host` and `--port`. */
  const ParserDefaultHost := "127.0.0.1"
  const ParserDefaultPort := 8008

  /** How the server is started: over standard streams, or over HTTP with the
      argument list handed to the flag parser. */
  datatype Transport = Stdio | Http(parserArgv: seq<string>)

  datatype Endpoint = Endpoint(host: string, port: int)

  /** `sys.argv[1:]`: the user's arguments, without the program name. */
  function UserArguments(sysArgv: seq<string>): (argv: seq<string>)
    ensures sysArgv != [] ==> sysArgv == [sysArgv[0]] + argv
    ensures sysArgv == [] ==> argv == []
  {
    if sysArgv == [] then [] else sysArgv[1..]
  }

  /** Drops one leading `--http`, and nothing else. */
  function DropHttpFlag(argv: seq<string>): (out: seq<string>)
    ensures |out| <= |argv| && out == argv[|argv| - |out|..]
    ensures |out| < |argv| <==> argv != [] && argv[0] == HttpFlag
    ensures |argv| - 1 <= |out|
  {
    if argv != [] && argv[0] == HttpFlag then argv[1..] else argv
  }

  /** Dropping the flag a second time changes nothing, unless the list began
      with two `--http`. */
  lemma DropHttpFlagIdempotentIff(argv: seq<string>)
    ensures DropHttpFlag(DropHttpFlag(argv)) == DropHttpFlag(argv)
        <==> !(|argv| >= 2 && argv[0] == HttpFlag && argv[1] == HttpFlag)
  {
  }

  /** `main_http_with_args`: what the flag parser is given. */
  function MainHttpWithArgs(sysArgv: seq<string>): (parserArgv: seq<string>)
    ensures UserArguments(sysArgv) != [] && UserArguments(sysArgv)[0] == HttpFlag ==>
      parserArgv == UserArguments(sysArgv)[1..]
    ensures !(UserArguments(sysArgv) != [] && UserArguments(sysArgv)[0] == HttpFlag) ==>
      parserArgv == UserArguments(sysArgv)
  {
    DropHttpFlag(UserArguments(sysArgv))
  }

  /** The `__main__` dispatch: HTTP exactly when the first user argument is
      `--http`, and then the parser sees the arguments after it. */
  function SelectTransport(sysArgv: seq<string>): (t: Transport)
    ensures t.Http? <==> UserArguments(sysArgv) != [] && UserArguments(sysArgv)[0] == HttpFlag
    ensures t.Http? ==> t.parserArgv == sysArgv[2..]
  {
    if |sysArgv| > 1 && sysArgv[1] == HttpFlag then Http(MainHttpWithArgs(sysArgv)) else Stdio
  }

  /** `main_http`, with its own parameter defaults: the server binds to the
      host and port it is given. */
  function MainHttp(host: string := "127.0.0.1", port: int := 8008): (e: Endpoint)
    ensures e.host == host && e.port == port
  {
    Endpoint(host, port)
  }

  /** The endpoint the server binds to, given what the flag parser found for
      `--host` and `--port`; an absent flag takes the parser's default. */
  function HttpEndpoint(host: Option<string>, port: Option<int>): (e: Endpoint)
    ensures e.host == (if host.Some? then host.value else "127.0.0.1")
    ensures e.port == (if port.Some? then port.value else 8008)
  {
    MainHttp(
      if host.Some? then host.value else ParserDefaultHost,
      if port.Some? then port.value else ParserDefaultPort)
  }

  /** The parser's defaults agree with `main_http`'s own. */
  lemma EndpointDefaultsAgree()
    ensures HttpEndpoint(None, None) == MainHttp()
    ensures MainHttp() == Endpoint("127.0.0.1", 8008)
  {
  }
}
