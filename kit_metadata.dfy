/**
 * Kit metadata: the encoded label carried by a kit image's configuration
 * (`EncodedKitMetadata`), its decoded form (`ImageMetadata`), its strict decoding
 * and its never-failing debug rendering.
 */
module KitMetadata {
  import opened Wrappers
  import opened Externals
  import opened Errors

  /** The dependency declaration of a kit: one SDK and any number of kits, in order. */
  datatype ImageMetadata = ImageMetadata(name: string, version: Version, sdk: Image, kits: seq<Image>)

  /** The label value as stored; equality is equality of the raw encoded string. */
  datatype EncodedKitMetadata = EncodedKitMetadata(raw: string)

  /**
   * Code from foreign crates, taken as uninterpreted total functions:
   * SHA-256, base64 STANDARD encoding and decoding, `serde_json` parsing of a
   * manifest list and of kit metadata, the derived `Debug` rendering of
   * `ImageMetadata`, and `DockerArchitecture::try_from`.
   */
  datatype Codecs = Codecs(
    sha256: Bytes -> Bytes,
    base64Encode: Bytes -> string,
    base64Decode: string -> Option<Bytes>,
    parseManifestList: Bytes -> Option<ManifestListView>,
    parseMetadata: Bytes -> Option<ImageMetadata>,
    showMetadata: ImageMetadata -> string,
    dockerArch: string -> Option<Arch>)

  /** The configuration label that holds a kit's metadata. */
  const KitLabel: string := "dev.bottlerocket.kit.v1"

  /**
   * `EncodedKitMetadata::try_from_image`: one configuration fetch (the `k`-th
   * image-tool call of the operation), then a lookup of the kit label.
   */
  function TryFromImage(tool: ImageTool, k: nat, uri: string): (r: Result<EncodedKitMetadata, Error>)
    ensures tool.config(k, uri).Err? ==> r == Err(Tool(tool.config(k, uri).error))
    ensures tool.config(k, uri).Ok? ==> (r.Ok? <==> KitLabel in tool.config(k, uri).value)
    ensures tool.config(k, uri).Ok? && r.Err? ==> r.error == NotAKit
    ensures r.Ok? ==> tool.config(k, uri).Ok? && r.value.raw == tool.config(k, uri).value[KitLabel]
  {
    match tool.config(k, uri)
    case Err(e) => Err(Tool(e))
    case Ok(labels) =>
      if KitLabel in labels then Ok(EncodedKitMetadata(labels[KitLabel])) else Err(NotAKit)
  }

  /** `ImageMetadata::try_from`: base64 first, then JSON; each stage fails on its own. */
  function DecodeMetadata(m: EncodedKitMetadata, c: Codecs): (r: Result<ImageMetadata, DecodeError>)
    ensures r == Err(Base64Invalid) <==> c.base64Decode(m.raw).None?
    ensures r == Err(JsonInvalid) <==>
      c.base64Decode(m.raw).Some? && c.parseMetadata(c.base64Decode(m.raw).value).None?
    ensures r.Ok? ==>
      c.base64Decode(m.raw).Some? && c.parseMetadata(c.base64Decode(m.raw).value) == Some(r.value)
  {
    match c.base64Decode(m.raw)
    case None => Err(Base64Invalid)
    case Some(bytes) =>
      match c.parseMetadata(bytes)
      case None => Err(JsonInvalid)
      case Some(md) => Ok(md)
  }

  /**
   * Decoding undoes encoding: metadata serialised to JSON by `toJson` and then
   * base64 encoded decodes back to itself, given that base64 decoding inverts
   * encoding on those bytes and JSON parsing inverts `toJson` on that value.
   */
  lemma DecodeRoundTrip(c: Codecs, toJson: ImageMetadata -> Bytes, md: ImageMetadata)
    requires c.base64Decode(c.base64Encode(toJson(md))) == Some(toJson(md))
    requires c.parseMetadata(toJson(md)) == Some(md)
    ensures DecodeMetadata(EncodedKitMetadata(c.base64Encode(toJson(md))), c) == Ok(md)
  {
  }

  /** The replacement text of one character: a line feed becomes a backslash and an `n`. */
  function EscapeChar(ch: char): string {
    if ch == '\n' then "\\n" else [ch]
  }

  /** Rust's `str::replace("\n", "\\n")`: every line feed becomes a backslash and an `n`. */
  function EscapeNewlines(s: string): (r: string)
    ensures '\n' !in r
    ensures '\n' !in s ==> r == s
    ensures |r| == |s| + NewlineCount(s)
  {
    if s == [] then [] else EscapeChar(s[0]) + EscapeNewlines(s[1..])
  }

  /** Escaping works character by character: it distributes over concatenation. */
  lemma {:induction false} EscapeNewlinesConcat(a: string, b: string)
    ensures EscapeNewlines(a + b) == EscapeNewlines(a) + EscapeNewlines(b)
  {
    if a == [] {
      assert a + b == b;
    } else {
      assert a + b != [] && (a + b)[0] == a[0] && (a + b)[1..] == a[1..] + b;
      EscapeNewlinesConcat(a[1..], b);
      var h, t, u := EscapeChar(a[0]), EscapeNewlines(a[1..]), EscapeNewlines(b);
      assert EscapeNewlines(a + b) == h + (t + u);
      assert h + (t + u) == (h + t) + u;
    }
  }

  /** A line feed becomes a backslash followed by `n`; every other character is kept. */
  lemma EscapeNewlinesOfChar(ch: char)
    ensures ch == '\n' ==> EscapeNewlines([ch]) == ['\\', 'n']
    ensures ch != '\n' ==> EscapeNewlines([ch]) == [ch]
  {
    assert [ch][1..] == [];
    assert EscapeNewlines([ch]) == EscapeChar(ch) + [];
  }

  function NewlineCount(s: string): nat {
    if s == [] then 0 else (if s[0] == '\n' then 1 else 0) + NewlineCount(s[1..])
  }

  const DecodedPrefix: string := "<ImageMetadata(decoded) ["
  const EncodedPrefix: string := "<ImageMetadata(encoded) ["
  const RenderingSuffix: string := "]>"

  /** `debug_image_metadata`: the decoded rendering, or nothing when either decoding stage fails. */
  function DebugImageMetadata(m: EncodedKitMetadata, c: Codecs): (r: Option<string>)
    ensures r.Some? <==> DecodeMetadata(m, c).Ok?
    ensures r.Some? ==>
      r.value == DecodedPrefix + c.showMetadata(DecodeMetadata(m, c).value) + RenderingSuffix
  {
    match c.base64Decode(m.raw)
    case None => None
    case Some(bytes) =>
      match c.parseMetadata(bytes)
      case None => None
      case Some(md) => Some(DecodedPrefix + c.showMetadata(md) + RenderingSuffix)
  }

  /**
   * `try_debug_image_metadata`: total; the fallback shows the raw string on
   * one line, its line feeds escaped.
   */
  function TryDebugImageMetadata(m: EncodedKitMetadata, c: Codecs): (r: string)
    ensures DecodeMetadata(m, c).Ok? ==>
      r == DecodedPrefix + c.showMetadata(DecodeMetadata(m, c).value) + RenderingSuffix
    ensures DecodeMetadata(m, c).Err? ==>
      r == EncodedPrefix + EscapeNewlines(m.raw) + RenderingSuffix && '\n' !in r
    ensures DecodeMetadata(m, c).Err? && '\n' !in m.raw ==>
      r == EncodedPrefix + m.raw + RenderingSuffix
  {
    match DebugImageMetadata(m, c)
    case Some(s) => s
    case None =>
      var escaped := EscapeNewlines(m.raw);
      assert '\n' !in EncodedPrefix && '\n' !in RenderingSuffix && '\n' !in escaped;
      EncodedPrefix + escaped + RenderingSuffix
  }

  /**
   * A property of base64 with the standard alphabet (section 4 of RFC 4648):
   * no encoding ends in a group of a single symbol, so a string whose length
   * leaves remainder 1 modulo 4 never decodes.
   */
  ghost predicate RejectsSingleSymbolTail(c: Codecs) {
    forall s: string :: |s| % 4 == 1 ==> c.base64Decode(s) == None
  }

  /** The junk string of the module's test decodes to nothing and is shown raw. */
  lemma JunkMetadataStaysEncoded(c: Codecs)
    requires RejectsSingleSymbolTail(c)
    ensures DebugImageMetadata(EncodedKitMetadata("abcdefghijklmnophello"), c) == None
    ensures TryDebugImageMetadata(EncodedKitMetadata("abcdefghijklmnophello"), c)
         == EncodedPrefix + "abcdefghijklmnophello" + RenderingSuffix
  {
    var junk := "abcdefghijklmnophello";
    assert |junk| == 21;
    assert c.base64Decode(junk) == None;
    assert '\n' !in junk;
  }
}
