/** The encoder wrapper and the data URL formatter (qrcode_utils.py).
    Everything `text_to_qr_base64` does inside its `try` block (building the
    QR symbol, rasterising it, serialising the image and base64-encoding the
    bytes) is foreign code; here it is the `library` parameter, a function
    from the request to either the base64 text or the message of the
    exception it raised. */
module QrCodeUtils {
  import opened Wrappers
  import opened PyStr
  import DataUrlScheme

  /** The four levels of `qrcode.constants.ERROR_CORRECT_*`. */
  datatype ErrorCorrection = L | M | Q | H

  /** What the QR, image and base64 libraries are asked to produce. */
  datatype QrRequest = QrRequest(
    text: string,
    errorCorrection: ErrorCorrection,
    boxSize: int,
    border: int,
    fillColor: string,
    backColor: string,
    imageFormat: string)

  /** The outcome of the foreign code in the `try` block: the base64 text, or
      the message `str(e)` of the exception it raised. */
  datatype LibraryOutcome = Encoded(base64: string) | Raised(message: string)

  type QrLibrary = QrRequest -> LibraryOutcome

  /** `ValueError` for blank text, and the generic `Exception` that re-wraps
      any failure of the foreign code. */
  datatype EncodeError = InvalidInput(message: string) | ProcessingFailed(message: string)

  const EmptyTextMessage := "输入文本不能为空"
  const ProcessingPrefix := "生成QR码时发生错误: "

  /** `text_to_qr_base64`: blank text is refused before anything is handed to
      the libraries; otherwise the request goes out unchanged, and a library
      failure comes back as the generic processing error. No other argument
      is checked here. */
  function TextToQrBase64(
    library: QrLibrary,
    text: string,
    errorCorrection: ErrorCorrection := M,
    boxSize: int := 10,
    border: int := 4,
    fillColor: string := "black",
    backColor: string := "white",
    imageFormat: string := "PNG"): (r: Result<string, EncodeError>)
    ensures r.Failure? && r.error.InvalidInput? <==> IsBlank(text)
    ensures r.Failure? && r.error.InvalidInput? ==> r.error.message == EmptyTextMessage
    ensures !IsBlank(text) ==>
      var request := QrRequest(text, errorCorrection, boxSize, border, fillColor, backColor, imageFormat);
      match library(request)
      case Encoded(b) => r == Success(b)
      case Raised(m) => r == Failure(ProcessingFailed(ProcessingPrefix + m))
  {
    if IsEmptyOrBlank(text) then
      Failure(InvalidInput(EmptyTextMessage))
    else
      var request := QrRequest(text, errorCorrection, boxSize, border, fillColor, backColor, imageFormat);
      match library(request)
      case Encoded(b) => Success(b)
      case Raised(m) => Failure(ProcessingFailed(ProcessingPrefix + m))
  }

  /** Blank text is refused before any library call: the outcome is the same
      whatever the libraries would have done. */
  lemma BlankTextSkipsLibrary(
    library1: QrLibrary, library2: QrLibrary, text: string, errorCorrection: ErrorCorrection,
    boxSize: int, border: int, fillColor: string, backColor: string, imageFormat: string)
    requires IsBlank(text)
    ensures TextToQrBase64(library1, text, errorCorrection, boxSize, border, fillColor, backColor, imageFormat)
         == TextToQrBase64(library2, text, errorCorrection, boxSize, border, fillColor, backColor, imageFormat)
         == Failure(InvalidInput(EmptyTextMessage))
  {
  }

  /** A processing error never stands for blank text: it is only ever the
      re-wrapped failure of a library call made for non-blank text. */
  lemma ProcessingErrorMeansLibraryFailed(
    library: QrLibrary, text: string, errorCorrection: ErrorCorrection,
    boxSize: int, border: int, fillColor: string, backColor: string, imageFormat: string)
    ensures var r := TextToQrBase64(library, text, errorCorrection, boxSize, border, fillColor, backColor, imageFormat);
      r.Failure? && r.error.ProcessingFailed? ==>
        && !IsBlank(text)
        && library(QrRequest(text, errorCorrection, boxSize, border, fillColor, backColor, imageFormat)).Raised?
  {
  }

  /** The wrapper itself checks no numeric range: for non-blank text, every
      box size and every border (zero, negative or huge) is handed to the
      libraries, and the input-validation error never arises. */
  lemma NoRangeCheckInWrapper(
    library: QrLibrary, text: string, errorCorrection: ErrorCorrection,
    boxSize: int, border: int, fillColor: string, backColor: string, imageFormat: string)
    requires !IsBlank(text)
    ensures var r := TextToQrBase64(library, text, errorCorrection, boxSize, border, fillColor, backColor, imageFormat);
      && !(r.Failure? && r.error.InvalidInput?)
      && (library(QrRequest(text, errorCorrection, boxSize, border, fillColor, backColor, imageFormat)).Encoded?
          ==> r == Success(library(QrRequest(text, errorCorrection, boxSize, border, fillColor, backColor, imageFormat)).base64))
  {
  }

  const DataUrlPrefix := "data:image/"
  const Base64Separator := ";base64,"

  /** The `image/<format>` media type: `image/`, then the tag lowered, one
      character for each character of the tag. */
  function MimeType(imageFormat: string): (mime: string)
    ensures |mime| == |"image/"| + |imageFormat|
    ensures mime[..|"image/"|] == "image/"
    ensures mime[|"image/"|..] == Lower(imageFormat)
  {
    "image/" + Lower(imageFormat)
  }

  /** A comma appears in the media type exactly when the format tag has one. */
  lemma MimeTypeKeepsComma(imageFormat: string)
    ensures ',' in MimeType(imageFormat) <==> ',' in imageFormat
  {
    var mime := MimeType(imageFormat);
    if ',' in mime {
      var k :| 0 <= k < |mime| && mime[k] == ',';
      assert k >= 6 && imageFormat[k - 6] == ',';
    }
    if ',' in imageFormat {
      var k :| 0 <= k < |imageFormat| && imageFormat[k] == ',';
      assert mime[k + 6] == ',';
    }
  }

  /** The three pieces of a concatenation are found at their offsets. */
  lemma ConcatSlices(a: string, b: string, c: string)
    ensures (a + b + c)[..|a|] == a
    ensures (a + b + c)[|a|..|a| + |b|] == b
    ensures (a + b + c)[|a| + |b|..] == c
  {
  }

  /** `get_data_url`: the fixed prefix, the lowered format tag, the base64
      marker, and then the payload, untouched. */
  function GetDataUrl(base64String: string, imageFormat: string := "PNG"): (url: string)
    ensures |url| == |base64String| + |imageFormat| + |DataUrlPrefix + Base64Separator|
    ensures url[..|DataUrlPrefix|] == DataUrlPrefix
    ensures url[|DataUrlPrefix|..|DataUrlPrefix| + |imageFormat|] == Lower(imageFormat)
    ensures url[|DataUrlPrefix| + |imageFormat|..|url| - |base64String|] == Base64Separator
    ensures url[|url| - |base64String|..] == base64String
  {
    var mimeType := MimeType(imageFormat);
    var url := "data:" + mimeType + ";base64," + base64String;
    var lowered := Lower(imageFormat);
    assert url == DataUrlPrefix + lowered + (Base64Separator + base64String);
    ConcatSlices(DataUrlPrefix, lowered, Base64Separator + base64String);
    ConcatSlices(DataUrlPrefix + lowered, Base64Separator, base64String);
    url
  }

  /** With the default format the URL begins `data:image/png;base64,`. */
  lemma DefaultDataUrlPrefix(base64String: string)
    ensures GetDataUrl(base64String)[..22] == "data:image/png;base64,"
  {
    var url := GetDataUrl(base64String);
    var prefix, tag, separator := url[..11], url[11..14], url[14..22];
    LowerPng();
    assert prefix == "data:image/" && tag == "png" && separator == ";base64,";
    assert url[..22] == prefix + tag + separator;
  }

  /** Two format tags give the same URL exactly when they agree after lowering. */
  lemma DataUrlIgnoresFormatCase(base64String: string, format1: string, format2: string)
    ensures GetDataUrl(base64String, format1) == GetDataUrl(base64String, format2)
        <==> Lower(format1) == Lower(format2)
  {
  }

  /** In particular, an upper-cased tag and the tag itself give the same URL. */
  lemma DataUrlUpperFormat(base64String: string, imageFormat: string)
    ensures GetDataUrl(base64String, Upper(imageFormat)) == GetDataUrl(base64String, imageFormat)
    ensures GetDataUrl(base64String, "PNG") == GetDataUrl(base64String, "png")
  {
  }

  /** An RFC 2397 reader recovers from the URL the lowered media type, the
      base64 flag and the payload, provided the format tag holds no comma. */
  lemma DataUrlParses(base64String: string, imageFormat: string)
    requires ',' !in imageFormat
    ensures DataUrlScheme.Parse(GetDataUrl(base64String, imageFormat))
         == Some(DataUrlScheme.DataUrlParts(MimeType(imageFormat), true, base64String))
  {
    var parts := DataUrlScheme.DataUrlParts(MimeType(imageFormat), true, base64String);
    MimeTypeKeepsComma(imageFormat);
    assert GetDataUrl(base64String, imageFormat) == DataUrlScheme.Render(parts);
    DataUrlScheme.ParseRender(parts);
  }

  /** What the module's own demo does: non-blank text encoded with every
      default is handed over as PNG, level M, box size 10 and border 4, and
      the data URL of the result begins `data:image/png;base64,`. */
  lemma EncodedTextDataUrlPrefix(library: QrLibrary, text: string, b: string)
    requires !IsBlank(text)
    requires library(QrRequest(text, M, 10, 4, "black", "white", "PNG")) == Encoded(b)
    ensures TextToQrBase64(library, text) == Success(b)
    ensures GetDataUrl(b)[..22] == "data:image/png;base64,"
  {
    DefaultDataUrlPrefix(b);
  }
}
