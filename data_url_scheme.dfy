/** The "data" URL scheme of RFC 2397, section 3, reduced to what the tool
    produces: `data:` [mediatype] [`;base64`] `,` data. The header ends at
    the first comma; everything after it is the data, taken verbatim. This
    module is the independent reference that the data URL formatter is
    checked against. */
module DataUrlScheme {
  import opened Wrappers

  const Scheme := "data:"
  const Base64Marker := ";base64"

  datatype DataUrlParts = DataUrlParts(mediaType: string, isBase64: bool, data: string)

  /** Position of the first `c` in `s`, or `|s|` when there is none. */
  function FirstIndexOf(s: string, c: char): (k: nat)
    ensures k <= |s|
    ensures k < |s| ==> s[k] == c
    ensures forall j :: 0 <= j < k ==> s[j] != c
  {
    if s == [] || s[0] == c then 0 else 1 + FirstIndexOf(s[1..], c)
  }

  predicate EndsWithBase64Marker(header: string) {
    |header| >= |Base64Marker| && header[|header| - |Base64Marker|..] == Base64Marker
  }

  /** Writes the parts out as a data URL. */
  function Render(p: DataUrlParts): string {
    Scheme + p.mediaType + (if p.isBase64 then Base64Marker else "") + "," + p.data
  }

  /** Parts that `Parse` can recover from their rendering: the media type holds
      no comma, and a plain (non-base64) media type does not itself end in
      the base64 marker. */
  predicate Unambiguous(p: DataUrlParts) {
    ',' !in p.mediaType && (!p.isBase64 ==> !EndsWithBase64Marker(p.mediaType))
  }

  /** Splits a data URL into its parts; `None` when the scheme or the comma is missing. */
  function Parse(url: string): (r: Option<DataUrlParts>)
    ensures r.Some? ==> Unambiguous(r.value)
  {
    if |url| < |Scheme| || url[..|Scheme|] != Scheme then None
    else
      var rest := url[|Scheme|..];
      var k := FirstIndexOf(rest, ',');
      if k == |rest| then None
      else
        var header := rest[..k];
        var data := rest[k + 1..];
        if EndsWithBase64Marker(header) then
          var mediaType := header[..|header| - |Base64Marker|];
          assert forall i :: 0 <= i < |mediaType| ==> mediaType[i] == rest[i];
          Some(DataUrlParts(mediaType, true, data))
        else
          Some(DataUrlParts(header, false, data))
  }

  /** Whatever parses is given back unchanged by rendering its parts. */
  lemma RenderParse(url: string)
    requires Parse(url).Some?
    ensures Render(Parse(url).value) == url
  {
  }

  /** Unambiguous parts survive a rendering and a parse. */
  lemma ParseRender(p: DataUrlParts)
    requires Unambiguous(p)
    ensures Parse(Render(p)) == Some(p)
  {
    var header := p.mediaType + (if p.isBase64 then Base64Marker else "");
    var rest := header + "," + p.data;
    assert Render(p) == Scheme + rest;
    assert Render(p)[|Scheme|..] == rest;
    assert ',' !in Base64Marker;
    assert ',' !in header;
    var k := FirstIndexOf(rest, ',');
    assert rest[|header|] == ',';
    assert k == |header|;
    assert rest[..k] == header;
    assert rest[k + 1..] == p.data;
    if p.isBase64 {
      assert header[..|header| - |Base64Marker|] == p.mediaType;
      assert header[|header| - |Base64Marker|..] == Base64Marker;
      assert EndsWithBase64Marker(header);
    } else {
      assert header == p.mediaType;
      assert !EndsWithBase64Marker(header);
    }
  }
}
