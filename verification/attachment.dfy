/** The attachment classifier: a closed set of attachment kinds, each with one
    fixed MIME type and one fixed file extension, and the rules that give a
    payload its default kind and its bytes. */
module Attachments {
  import opened Base
  import Wire

  /** Every attachment kind the recorder knows. */
  datatype AttachmentType =
    | Text | Html | Xml | Json | Yaml | Csv | Tsv | UriList
    | Png | Jpeg | Gif | Bmp | Tiff | Svg | ImageDiff
    | Mp4 | Ogg | Webm

  function MimeType(t: AttachmentType): string {
    match t
    case Text => "text/plain"
    case Html => "text/html"
    case Xml => "application/xml"
    case Json => "application/json"
    case Yaml => "application/yaml"
    case Csv => "text/csv"
    case Tsv => "text/tab-separated-values"
    case UriList => "text/uri-list"
    case Png => "image/png"
    case Jpeg => "image/jpeg"
    case Gif => "image/gif"
    case Bmp => "image/bmp"
    case Tiff => "image/tiff"
    case Svg => "image/svg+xml"
    case ImageDiff => "application/vnd.allure.image.diff"
    case Mp4 => "video/mp4"
    case Ogg => "video/ogg"
    case Webm => "video/webm"
  }

  function Extension(t: AttachmentType): string {
    match t
    case Text => "txt"
    case Html => "html"
    case Xml => "xml"
    case Json => "json"
    case Yaml => "yaml"
    case Csv => "csv"
    case Tsv => "tsv"
    case UriList => "uri"
    case Png => "png"
    case Jpeg => "jpg"
    case Gif => "gif"
    case Bmp => "bmp"
    case Tiff => "tiff"
    case Svg => "svg"
    case ImageDiff => "diff.png"
    case Mp4 => "mp4"
    case Ogg => "ogg"
    case Webm => "webm"
  }

  /** The kind a MIME type belongs to, if any: the inverse of `MimeType`. */
  function KindOfMimeType(m: string): (r: Option<AttachmentType>)
    ensures r.Some? ==> MimeType(r.value) == m
    ensures forall t :: MimeType(t) == m ==> r == Some(t)
  {
    if m == "text/plain" then Some(Text)
    else if m == "text/html" then Some(Html)
    else if m == "application/xml" then Some(Xml)
    else if m == "application/json" then Some(Json)
    else if m == "application/yaml" then Some(Yaml)
    else if m == "text/csv" then Some(Csv)
    else if m == "text/tab-separated-values" then Some(Tsv)
    else if m == "text/uri-list" then Some(UriList)
    else if m == "image/png" then Some(Png)
    else if m == "image/jpeg" then Some(Jpeg)
    else if m == "image/gif" then Some(Gif)
    else if m == "image/bmp" then Some(Bmp)
    else if m == "image/tiff" then Some(Tiff)
    else if m == "image/svg+xml" then Some(Svg)
    else if m == "application/vnd.allure.image.diff" then Some(ImageDiff)
    else if m == "video/mp4" then Some(Mp4)
    else if m == "video/ogg" then Some(Ogg)
    else if m == "video/webm" then Some(Webm)
    else None
  }

  /** The kind an extension belongs to, if any: the inverse of `Extension`. */
  function KindOfExtension(e: string): (r: Option<AttachmentType>)
    ensures r.Some? ==> Extension(r.value) == e
    ensures forall t :: Extension(t) == e ==> r == Some(t)
  {
    if e == "txt" then Some(Text)
    else if e == "html" then Some(Html)
    else if e == "xml" then Some(Xml)
    else if e == "json" then Some(Json)
    else if e == "yaml" then Some(Yaml)
    else if e == "csv" then Some(Csv)
    else if e == "tsv" then Some(Tsv)
    else if e == "uri" then Some(UriList)
    else if e == "png" then Some(Png)
    else if e == "jpg" then Some(Jpeg)
    else if e == "gif" then Some(Gif)
    else if e == "bmp" then Some(Bmp)
    else if e == "tiff" then Some(Tiff)
    else if e == "svg" then Some(Svg)
    else if e == "diff.png" then Some(ImageDiff)
    else if e == "mp4" then Some(Mp4)
    else if e == "ogg" then Some(Ogg)
    else if e == "webm" then Some(Webm)
    else None
  }

  /** Distinct kinds have distinct MIME types and distinct extensions, so
      either one identifies the kind. */
  lemma TablesInjective(a: AttachmentType, b: AttachmentType)
    ensures MimeType(a) == MimeType(b) ==> a == b
    ensures Extension(a) == Extension(b) ==> a == b
  {
    assert KindOfMimeType(MimeType(a)) == Some(a);
    assert KindOfExtension(Extension(a)) == Some(a);
  }

  /** Only the image-diff extension has a dot in it; every other extension is
      a single file-name suffix. */
  lemma OnlyImageDiffExtensionHasDot(t: AttachmentType)
    ensures '.' in Extension(t) <==> t == ImageDiff
  {
    if t == ImageDiff {
      assert Extension(t)[4] == '.';
    }
  }

  /** A payload handed to the recorder. Text payloads are held as their
      UTF-8 bytes, which is what a Rust string is. */
  datatype Content =
    | StrSlice(utf8: seq<byte>)
    | OwnedString(utf8: seq<byte>)
    | ByteSlice(bytes: seq<byte>)
    | ByteVec(bytes: seq<byte>)
    | JsonValue(value: Wire.Json)
    | Typed(content: Content, kind: AttachmentType)

  /** A payload that is text or raw bytes, whose bytes it carries itself. */
  predicate IsRaw(c: Content) {
    c.StrSlice? || c.OwnedString? || c.ByteSlice? || c.ByteVec?
  }

  /** The bytes a raw payload carries. */
  function RawBytes(c: Content): seq<byte>
    requires IsRaw(c)
  {
    match c
    case StrSlice(b) => b
    case OwnedString(b) => b
    case ByteSlice(b) => b
    case ByteVec(b) => b
  }

  /** The kind a payload reports. */
  function KindOf(c: Content): AttachmentType {
    match c
    case StrSlice(_) => Text
    case OwnedString(_) => Text
    case ByteSlice(_) => Text
    case ByteVec(_) => Text
    case JsonValue(_) => Json
    case Typed(_, kind) => kind
  }

  /** The bytes a payload is written as. A JSON value is written as its
      pretty-printed text, which `pretty` supplies. */
  function IntoBytes(c: Content, pretty: Wire.Json -> seq<byte>): seq<byte> {
    match c
    case StrSlice(b) => b
    case OwnedString(b) => b
    case ByteSlice(b) => b
    case ByteVec(b) => b
    case JsonValue(v) => pretty(v)
    case Typed(inner, _) => IntoBytes(inner, pretty)
  }

  /** Text and byte payloads default to plain text and are written byte for
      byte. */
  lemma RawContentIsPlainText(c: Content, pretty: Wire.Json -> seq<byte>)
    requires IsRaw(c)
    ensures KindOf(c) == Text
    ensures MimeType(KindOf(c)) == "text/plain" && Extension(KindOf(c)) == "txt"
    ensures IntoBytes(c, pretty) == RawBytes(c)
  {
  }

  /** A JSON value defaults to the JSON kind and is written as its
      pretty-printed text. */
  lemma JsonContentIsJson(v: Wire.Json, pretty: Wire.Json -> seq<byte>)
    ensures KindOf(JsonValue(v)) == Json
    ensures MimeType(KindOf(JsonValue(v))) == "application/json"
    ensures Extension(KindOf(JsonValue(v))) == "json"
    ensures IntoBytes(JsonValue(v), pretty) == pretty(v)
  {
  }

  /** A typed wrapper reports its explicit kind, whatever it wraps, and is
      written as exactly the bytes of what it wraps. */
  lemma TypedContentKeepsBytes(inner: Content, kind: AttachmentType, pretty: Wire.Json -> seq<byte>)
    ensures KindOf(Typed(inner, kind)) == kind
    ensures IntoBytes(Typed(inner, kind), pretty) == IntoBytes(inner, pretty)
  {
  }
}
