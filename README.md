# qrcode_mcp in Dafny

A model of the thin orchestration layer of `qrcode_mcp`, a QR-code tool server.
The repository hands all real work to outside code: QR symbol construction,
rasterisation, image serialisation and base64. What is left, and what is modelled
here, is four small pieces:

- the **data URL formatter** `get_data_url`, which wraps a base64 payload as
  `data:image/<format, lowered>;base64,<payload>` (the "data" URL scheme of RFC 2397, section 3);
- the **blank-text guard** of the encoder wrapper `text_to_qr_base64`: text that is empty
  or all whitespace is refused with a `ValueError` before any library is called, and
  only failures of the library calls are re-wrapped as the generic processing error;
- the **tool adapter** `generate_qr_code`: guard clauses on the text, then `box_size`
  in [1, 50], then `border` in [0, 20], then a call to the encoder wrapper with JPEG
  output whose result becomes an image content record (`type` "image", MIME type
  `image/jpeg`), and any error raised there becomes a `RuntimeError` prefixed
  "Failed to generate QR code: ";
- the **command line**: a leading `--http` selects the HTTP transport and is removed
  before the flag parser sees the arguments; otherwise the server runs over standard
  streams. The HTTP defaults are host `127.0.0.1` and port `8008`.

Modules:

- `Wrappers` (wrappers.dfy): `Option` and `Result`, standing for `None` and raised exceptions.
- `PyStr` (pystr.dfy): Python's `str.strip()` (with the exact `str.isspace` character set)
  and `str.lower()` restricted to ASCII letters; the proof that the guard
  `not text or not text.strip()` holds exactly for all-whitespace text.
- `DataUrlScheme` (data_url_scheme.dfy): a reader and writer of RFC 2397 data URLs,
  reduced to the header/data split (the header ends at the first comma; the data is
  taken as it stands, without percent-decoding, and the media type is neither
  defaulted nor split into parameters), with both round trips proved. It is the
  reference the formatter is checked against.
- `QrCodeUtils` (qrcode_utils.dfy): `text_to_qr_base64` and `get_data_url`.
- `QrCodeMcpServer` (qrcode_mcp_server.dfy): `generate_qr_code` and the command-line handling.

The foreign code inside the `try` block of `text_to_qr_base64` (qrcode, PIL, base64)
is the parameter `library: QrRequest -> LibraryOutcome`: given the exact request it
yields either the base64 text or the message of the exception it raised. Every
property is proved for all such libraries. "No library call happens" is stated as
"the result is the same whatever the library does".

`text_to_qr_base64` (qrcode_utils.py:35-36) checks only the text. The numeric
ranges are checked only by the tool adapter (qrcode_mcp_server.py:42-46).
`NoRangeCheckInWrapper` states this.

## Model

| member | source | states |
|---|---|---|
| `PyStr.StripLeading` | qrcode_utils.py:35 | the result is a suffix of the input; what was removed is all whitespace; it does not itself start with whitespace |
| `PyStr.StripTrailing` | qrcode_utils.py:35 | the result is a prefix of the input; what was removed is all whitespace; it does not itself end with whitespace |
| `PyStr.Strip` | qrcode_utils.py:35 | `strip()` gives a contiguous slice of the text with only whitespace cut off on either side, and the slice neither starts nor ends with whitespace |
| `PyStr.IsEmptyOrBlank` | qrcode_mcp_server.py:38 | the guard `not text or not text.strip()`, used at qrcode_utils.py:35 and here, holds exactly when every character of the text is whitespace (so the empty text too) |
| `PyStr.Lower` | qrcode_utils.py:105 | `lower()` keeps the length and lowers each character in place (ASCII letters only) |
| `PyStr.LowerPng` | qrcode_utils.py:94-105 | the default tag "PNG" lowers to "png" |
| `PyStr.LowerIdempotent` | qrcode_utils.py:105 | lowering an already lowered tag changes nothing |
| `PyStr.LowerOfUpper` | qrcode_utils.py:105 | an upper-cased tag lowers to the same string as the tag itself |
| `PyStr.LowerKeepsComma` | qrcode_utils.py:105 | lowering neither adds nor removes commas, so it cannot break the data URL header |
| `QrCodeUtils.TextToQrBase64` | qrcode_utils.py:7-65 | the input-validation error occurs exactly for blank text, with its fixed message; for non-blank text the library gets the request unchanged, its base64 text is returned, and its failure becomes the processing error with the fixed prefix |
| `QrCodeUtils.BlankTextSkipsLibrary` | qrcode_utils.py:35-38 | for blank text the outcome is the validation error whatever the library would do, so no library call is made |
| `QrCodeUtils.ProcessingErrorMeansLibraryFailed` | qrcode_utils.py:35-65 | a processing error only arises for non-blank text whose library call raised; blank text is never reported that way |
| `QrCodeUtils.NoRangeCheckInWrapper` | qrcode_utils.py:35-45 | the wrapper checks no numeric range: for non-blank text, every box size and border, in range or not, reaches the library, the validation error never arises, and the library's output is returned |
| `QrCodeUtils.MimeType` | qrcode_utils.py:105 | the media type is `image/` followed by the tag lowered, one character per character of the tag |
| `QrCodeUtils.MimeTypeKeepsComma` | qrcode_utils.py:105 | the media type holds a comma exactly when the tag does |
| `QrCodeUtils.GetDataUrl` | qrcode_utils.py:94-106 | the URL is `data:image/`, then the lowered tag, then `;base64,`, then the payload unchanged; its length is payload + tag + 19 |
| `QrCodeUtils.DefaultDataUrlPrefix` | qrcode_utils.py:94-106 | with the default format the URL starts `data:image/png;base64,` |
| `QrCodeUtils.DataUrlIgnoresFormatCase` | qrcode_utils.py:105-106 | two format tags give the same URL if and only if they agree after lowering |
| `QrCodeUtils.DataUrlUpperFormat` | qrcode_utils.py:105-106 | an upper-cased tag gives the same URL as the tag; "PNG" and "png" give the same URL |
| `QrCodeUtils.DataUrlParses` | qrcode_utils.py:105-106 | an RFC 2397 reader gets back the media type `image/<lowered tag>`, the base64 flag and the exact payload, for any tag without a comma |
| `QrCodeUtils.EncodedTextDataUrlPrefix` | qrcode_utils.py:115-121 | non-blank text encoded with every default goes to the library as PNG with level M, box size 10 and border 4, and the data URL of the result starts `data:image/png;base64,` |
| `QrCodeMcpServer.CheckToolArguments` | qrcode_mcp_server.py:38-57 | the text error occurs exactly for blank text; the box-size error exactly for non-blank text with box size outside [1, 50]; the border error exactly when those pass and border is outside [0, 20]; otherwise the call is delegated with the same text, sizes and colours, level M and format "JPEG" |
| `QrCodeMcpServer.FirstFailure` | qrcode_mcp_server.py:38-46 | a guard-clause sequence fails exactly when one of its checks fails, and then its message is that of a failing check with every earlier check passing |
| `QrCodeMcpServer.CheckOrderIsSourceOrder` | qrcode_mcp_server.py:38-46 | the reported error is the message of the first failing check in the order text, box size, border |
| `QrCodeMcpServer.GenerateQrCode` | qrcode_mcp_server.py:22-68 | a `ValueError` is raised exactly when a check fails, with that check's message; a success carries type "image", MIME type `image/jpeg` and the encoder's exact output; a `RuntimeError` arises only from a failed encoder call and its message is "Failed to generate QR code: " followed by the wrapper's message |
| `QrCodeMcpServer.RejectionSkipsEncoder` | qrcode_mcp_server.py:38-50 | when a check fails the outcome is the same whatever the encoder would do |
| `QrCodeMcpServer.AcceptedCallSucceedsIffEncoderDoes` | qrcode_mcp_server.py:48-68 | once the checks pass, the tool succeeds exactly when the encoder produces output |
| `QrCodeMcpServer.ToolImageEmbedsAsDataUrl` | qrcode_mcp_server.py:56-64 | the MIME type of every successful call, `image/jpeg`, is the one the data URL formatter derives from "JPEG", so the image reads back from its data URL with that type and payload |
| `QrCodeMcpServer.UserArguments` | qrcode_mcp_server.py:92 | the user arguments are the command line without the program name |
| `QrCodeMcpServer.DropHttpFlag` | qrcode_mcp_server.py:93-94 | the result is the argument list or its tail; it is shorter exactly when the list starts with `--http` |
| `QrCodeMcpServer.DropHttpFlagIdempotentIff` | qrcode_mcp_server.py:93-94 | dropping the flag twice equals dropping it once if and only if the list does not start with two `--http` |
| `QrCodeMcpServer.MainHttpWithArgs` | qrcode_mcp_server.py:86-100 | when the user arguments start with `--http` the flag parser gets them without it; otherwise it gets them unchanged |
| `QrCodeMcpServer.SelectTransport` | qrcode_mcp_server.py:103-110 | HTTP is chosen exactly when the first user argument is `--http`, and then the parser gets everything after it; otherwise standard streams |
| `QrCodeMcpServer.MainHttp` | qrcode_mcp_server.py:77-82 | the server binds to exactly the host and port it is given (its defaults are compared in `EndpointDefaultsAgree`) |
| `QrCodeMcpServer.HttpEndpoint` | qrcode_mcp_server.py:96-101 | a `--host` or `--port` that is not given is `127.0.0.1` or `8008` |
| `QrCodeMcpServer.EndpointDefaultsAgree` | qrcode_mcp_server.py:77-98 | the flag parser's defaults (lines 97-98, written separately in the model) equal `main_http`'s own parameter defaults (line 77): `127.0.0.1` and `8008` |

## Left out

- QR symbol construction, version fitting, error-correction coding and rendering (qrcode_utils.py:40-52): outside code, folded into the `library` parameter.
- Image serialisation through PIL and the in-memory buffer, and base64 encoding (qrcode_utils.py:55-60): outside code, also inside `library`.
- `save_qr_base64_to_file` (qrcode_utils.py:68-91): file decoding and writing plus a console message, only I/O.
- The `__main__` demo of qrcode_utils.py is kept only as the property `EncodedTextDataUrlPrefix`; its printing and file write are I/O.
- Tool registration, async execution, `mcp.run`, the HTTP server and logging (qrcode_mcp_server.py:14-21, 71-82): transport and I/O. `main_stdio` and `main_http` stay only as the `Transport` and `Endpoint` they would start.
- argparse's own parsing of `--host` and `--port` (qrcode_mcp_server.py:96-100): library code. `HttpEndpoint` takes what it found as `Option`s and models only the defaults.
- The example and smoke-test drivers (example.py, test_mcp_client.py): they only print and call through a client.
- Only failures that Python raises as `Exception` are re-wrapped (qrcode_utils.py:64, qrcode_mcp_server.py:66). `KeyboardInterrupt` and `SystemExit` pass through both wrappers unchanged. The `library` parameter's `Raised` outcome stands only for the caught kind, and the model has no outcome for the others.
- Colour strings are passed through without checks, so the model only carries them.
- `PyStr.Lower`: models `str.lower()` on ASCII letters only. Python also lowers other letters (such as "É"), which this model leaves unchanged.
- The error-correction argument of `text_to_qr_base64` is an `int` in Python. The model restricts it to the four named levels.
- Code that checks the type of Python arguments (the tool's parameters are typed by the protocol layer) is not modelled. `box_size` and `border` are unbounded integers.
