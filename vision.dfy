/** Image type handling before an upload is sent to the vision model
    (backend/app/vision.py): signature sniffing and the declared-type filter. */
module Vision {
  import opened Wrappers
  import opened Strings

  newtype byte = x: int | 0 <= x < 256

  /** The types the vision model accepts. */
  const Allowed: set<string> := {"image/jpeg", "image/png", "image/webp", "image/gif"}

  /** The JPEG start-of-image marker, ITU-T T.81 Table B.1. */
  const JpegSoi: seq<byte> := [0xFF, 0xD8]
  /** The PNG file signature, section 3.1 of RFC 2083. */
  const PngSignature: seq<byte> := [0x89, 0x50, 0x4E, 0x47, 0x0D, 0x0A, 0x1A, 0x0A]
  const Gif87a: seq<byte> := [0x47, 0x49, 0x46, 0x38, 0x37, 0x61]
  const Gif89a: seq<byte> := [0x47, 0x49, 0x46, 0x38, 0x39, 0x61]
  const Riff: seq<byte> := [0x52, 0x49, 0x46, 0x46]
  const Webp: seq<byte> := [0x57, 0x45, 0x42, 0x50]

  /** Python's `data[i:j] == sig`: the slice exists in full and equals the signature. */
  predicate SliceIs(data: seq<byte>, i: nat, sig: seq<byte>)
  {
    i + |sig| <= |data| && data[i..i + |sig|] == sig
  }

  /** `_detect_mime_from_bytes`: the first matching signature, in the order JPEG, PNG, GIF, WEBP;
      "image/jpeg" for short or unrecognised data. */
  function DetectMime(data: seq<byte>): (m: string)
    ensures m in Allowed
    ensures |data| < 4 ==> m == "image/jpeg"
    ensures |data| >= 4 && SliceIs(data, 0, JpegSoi) ==> m == "image/jpeg"
    ensures m == "image/png" <==> |data| >= 4 && !SliceIs(data, 0, JpegSoi) && SliceIs(data, 0, PngSignature)
    ensures m == "image/gif" <==>
      |data| >= 4 && !SliceIs(data, 0, JpegSoi) && !SliceIs(data, 0, PngSignature)
      && (SliceIs(data, 0, Gif87a) || SliceIs(data, 0, Gif89a))
    ensures m == "image/webp" <==>
      |data| >= 4 && !SliceIs(data, 0, JpegSoi) && !SliceIs(data, 0, PngSignature)
      && !SliceIs(data, 0, Gif87a) && !SliceIs(data, 0, Gif89a)
      && SliceIs(data, 0, Riff) && SliceIs(data, 8, Webp)
  {
    if |data| >= 4 then
      if SliceIs(data, 0, JpegSoi) then "image/jpeg"
      else if SliceIs(data, 0, PngSignature) then "image/png"
      else if SliceIs(data, 0, Gif87a) || SliceIs(data, 0, Gif89a) then "image/gif"
      else if SliceIs(data, 0, Riff) && SliceIs(data, 8, Webp) then "image/webp"
      else "image/jpeg"
    else "image/jpeg"
  }

  /** Any data starting with the PNG signature sniffs as PNG: the signature's first byte rules out JPEG. */
  lemma PngSignatureSniffs(data: seq<byte>)
    requires |data| >= 8 && data[..8] == PngSignature
    ensures DetectMime(data) == "image/png"
  {
    assert data[0] == 0x89;
  }

  /** A GIF header sniffs as GIF whatever follows it. */
  lemma GifHeaderSniffs(data: seq<byte>)
    requires |data| >= 6 && (data[..6] == Gif87a || data[..6] == Gif89a)
    ensures DetectMime(data) == "image/gif"
  {
    assert data[0] == 0x47;
  }

  /** A RIFF container whose form type is WEBP sniffs as WEBP. */
  lemma WebpSniffs(data: seq<byte>)
    requires |data| >= 12 && data[..4] == Riff && data[8..12] == Webp
    ensures DetectMime(data) == "image/webp"
  {
    assert data[0] == 0x52;
  }

  /** The declared type as compared: parameters after ';' dropped, trimmed, lower-cased, "image/jpg" read as "image/jpeg". */
  function DeclaredMime(mimeType: Option<string>): (mt: string)
    ensures mt != "image/jpg"
  {
    var mt := Lower(Strip(SplitOn(mimeType.GetOr(""), ';')[0]));
    if mt == "image/jpg" then "image/jpeg" else mt
  }

  /** `_sanitize_mime`: the declared type when allowed, otherwise the sniffed one. */
  function SanitizeMime(mimeType: Option<string>, data: seq<byte>): (m: string)
    ensures m in Allowed
    ensures DeclaredMime(mimeType) in Allowed ==> m == DeclaredMime(mimeType)
    ensures DeclaredMime(mimeType) !in Allowed ==> m == DetectMime(data)
  {
    var mt := DeclaredMime(mimeType);
    if mt in Allowed then mt
    else
      var sniffed := DetectMime(data);
      if sniffed in Allowed then sniffed else "image/jpeg"
  }

  /** Parameters after ';' never change the verdict on a declared type. */
  lemma DeclaredIgnoresParameters(t: string, params: string)
    requires NoChar(t, ';')
    ensures DeclaredMime(Some(t + ";" + params)) == DeclaredMime(Some(t))
  {
    assert t + ";" + params == t + [';'] + params;
    SplitOnCons(t, ';', params);
    IndexOfAbsent(t, ';');
  }

  /** Declared types are compared without regard to letter case. */
  lemma DeclaredIgnoresCase(t: string)
    requires NoChar(t, ';')
    ensures DeclaredMime(Some(Lower(t))) == DeclaredMime(Some(t))
  {
    IndexOfAbsent(t, ';');
    assert NoChar(Lower(t), ';');
    IndexOfAbsent(Lower(t), ';');
    LowerStripCommute(t);
    LowerIdempotent(Strip(t));
  }
}
