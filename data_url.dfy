/** The header `data:image/<type>;base64,` that both image decoders look for. */
module DataUrl {
  import opened Wrappers
  import opened Text

  /** Image bytes (a Node `Buffer`). */
  type Bytes = seq<bv8>

  /** `Buffer.from(text, 'base64')`, whose lenient decoding is not modelled. */
  type Decoder = string -> Bytes

  const Scheme: string := "data:image/"
  const Marker: string := ";base64,"

  function Header(mime: string): string
  {
    Scheme + mime + Marker
  }

  /** The `<type>` of a leading header `data:image/<type>;base64,`, where
      `<type>` is one or more characters other than `;` (`[^;]+`). */
  function MimeType(s: string): (r: Option<string>)
    ensures r.Some? ==> |r.value| >= 1 && ';' !in r.value
    ensures r.Some? ==> |Header(r.value)| <= |s| && s[..|Header(r.value)|] == Header(r.value)
  {
    if |s| < |Scheme| || s[..|Scheme|] != Scheme then None
    else
      var rest := s[|Scheme|..];
      var mime := BeforeFirst(rest, ';');
      var after := rest[|mime|..];
      if |mime| >= 1 && |Marker| <= |after| && after[..|Marker|] == Marker then
        HeaderSplit(s, mime, after);
        Some(mime)
      else None
  }

  lemma HeaderSplit(s: string, mime: string, after: string)
    requires |Scheme| <= |s| && s[..|Scheme|] == Scheme && s[|Scheme|..] == mime + after
    requires |Marker| <= |after| && after[..|Marker|] == Marker
    ensures |Header(mime)| <= |s| && s[..|Header(mime)|] == Header(mime)
  {
    assert s == Scheme + (mime + after);
    assert s[..|Header(mime)|] == Scheme + mime + after[..|Marker|];
  }

  /** Every header is recognised, with its own type, whatever follows it. */
  lemma {:induction false} MimeTypeOfHeader(mime: string, rest: string)
    requires |mime| >= 1 && ';' !in mime
    ensures MimeType(Header(mime) + rest) == Some(mime)
  {
    var tail := mime + (Marker + rest);
    var s := Header(mime) + rest;
    assert s == Scheme + tail;
    SplitAt(Scheme, tail);
    assert tail == mime + [';'] + ("base64," + rest);
    BeforeFirstOfJoin(mime, ';', "base64," + rest);
    SplitAt(mime, Marker + rest);
    SplitAt(Marker, rest);
  }

  /** Both halves of a concatenation come back out of it. */
  lemma SplitAt<T>(a: seq<T>, b: seq<T>)
    ensures (a + b)[..|a|] == a && (a + b)[|a|..] == b
  {
  }

  /** What follows the header. */
  function Payload(s: string, mime: string): string
    requires |Header(mime)| <= |s|
  {
    s[|Header(mime)|..]
  }
}
