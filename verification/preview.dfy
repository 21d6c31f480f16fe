/**
 * Preview synthesis: the HTML document served to unfurl bots, carrying the
 * page metadata as Open Graph and Twitter Card tags and an immediate
 * `refresh` redirect to the target. Every interpolated value passes through
 * `Esc`, which replaces the four characters that would otherwise end an
 * attribute value or open a tag with their HTML character references
 * (WHATWG HTML Living Standard, section 13.1.4).
 */
module Preview {
  import opened Text
  import opened Extractor

  // ---------------------------------------------------------------- escaping

  /** `s.replace(/c/g, rep)`: every occurrence of `c` replaced by `rep`. */
  function ReplaceAll(s: string, c: char, rep: string): (r: string)
    ensures c !in rep ==> c !in r
    ensures forall x :: x in r ==> x in s || x in rep
  {
    if |s| == 0 then ""
    else (if s[0] == c then rep else [s[0]]) + ReplaceAll(s[1..], c, rep)
  }

  /** `esc` as written: four global replacements chained, `&` first. */
  function Esc(s: string): (r: string)
    ensures '<' !in r && '>' !in r && '"' !in r
  {
    ReplaceAll(ReplaceAll(ReplaceAll(ReplaceAll(s, '&', "&amp;"), '<', "&lt;"), '>', "&gt;"), '"', "&quot;")
  }

  /** The character reference for one character, or the character itself. */
  function EscapeChar(c: char): string {
    match c
    case '&' => "&amp;"
    case '<' => "&lt;"
    case '>' => "&gt;"
    case '"' => "&quot;"
    case _ => [c]
  }

  /** Reference escaper: each character replaced independently. */
  function EscapeCharwise(s: string): string {
    if |s| == 0 then "" else EscapeChar(s[0]) + EscapeCharwise(s[1..])
  }

  /** Reference decoder for the four character references `Esc` produces. */
  function DecodeReferences(t: string): string
    decreases |t|
  {
    if |t| == 0 then ""
    else if "&amp;" <= t then "&" + DecodeReferences(t[5..])
    else if "&lt;" <= t then "<" + DecodeReferences(t[4..])
    else if "&gt;" <= t then ">" + DecodeReferences(t[4..])
    else if "&quot;" <= t then "\"" + DecodeReferences(t[6..])
    else [t[0]] + DecodeReferences(t[1..])
  }

  lemma {:induction false} ReplaceAllAppend(a: string, b: string, c: char, rep: string)
    ensures ReplaceAll(a + b, c, rep) == ReplaceAll(a, c, rep) + ReplaceAll(b, c, rep)
    decreases |a|
  {
    if |a| == 0 {
      assert a + b == b;
    } else {
      assert (a + b)[0] == a[0];
      assert (a + b)[1..] == a[1..] + b;
      ReplaceAllAppend(a[1..], b, c, rep);
    }
  }

  lemma {:induction false} ReplaceAllAbsent(s: string, c: char, rep: string)
    requires c !in s
    ensures ReplaceAll(s, c, rep) == s
    decreases |s|
  {
    if |s| > 0 {
      ReplaceAllAbsent(s[1..], c, rep);
    }
  }

  /** A string without any of the four special characters is its own escape. */
  lemma EscIdle(s: string)
    requires '&' !in s && '<' !in s && '>' !in s && '"' !in s
    ensures Esc(s) == s
  {
    ReplaceAllAbsent(s, '&', "&amp;");
    ReplaceAllAbsent(s, '<', "&lt;");
    ReplaceAllAbsent(s, '>', "&gt;");
    ReplaceAllAbsent(s, '"', "&quot;");
  }

  lemma ReplaceAllOne(x: char, c: char, rep: string)
    ensures ReplaceAll([x], c, rep) == (if x == c then rep else [x])
  {
    assert [x][1..] == [];
    assert ReplaceAll([], c, rep) == "";
  }

  /** The last three replacements leave a string without `<`, `>` and `"` unchanged. */
  lemma ChainTailIdle(t: string)
    requires '<' !in t && '>' !in t && '"' !in t
    ensures ReplaceAll(ReplaceAll(ReplaceAll(t, '<', "&lt;"), '>', "&gt;"), '"', "&quot;") == t
  {
    ReplaceAllAbsent(t, '<', "&lt;");
    ReplaceAllAbsent(t, '>', "&gt;");
    ReplaceAllAbsent(t, '"', "&quot;");
  }

  /** On one character the chain of replacements yields that character's reference. */
  lemma EscOneChar(x: char)
    ensures Esc([x]) == EscapeChar(x)
  {
    ReplaceAllOne(x, '&', "&amp;");
    if x == '&' {
      ChainTailIdle("&amp;");
    } else {
      ReplaceAllOne(x, '<', "&lt;");
      if x == '<' {
        ReplaceAllAbsent("&lt;", '>', "&gt;");
        ReplaceAllAbsent("&lt;", '"', "&quot;");
      } else {
        ReplaceAllOne(x, '>', "&gt;");
        if x == '>' {
          ReplaceAllAbsent("&gt;", '"', "&quot;");
        } else {
          ReplaceAllOne(x, '"', "&quot;");
        }
      }
    }
  }

  /**
   * The chained replacements equal independent per-character escaping:
   * no replacement re-escapes the `&` an earlier one introduced.
   */
  lemma {:induction false} EscIsCharwise(s: string)
    ensures Esc(s) == EscapeCharwise(s)
    decreases |s|
  {
    if |s| > 0 {
      var head, tail := [s[0]], s[1..];
      assert s == head + tail;
      var s1h, s1t := ReplaceAll(head, '&', "&amp;"), ReplaceAll(tail, '&', "&amp;");
      ReplaceAllAppend(head, tail, '&', "&amp;");
      var s2h, s2t := ReplaceAll(s1h, '<', "&lt;"), ReplaceAll(s1t, '<', "&lt;");
      ReplaceAllAppend(s1h, s1t, '<', "&lt;");
      var s3h, s3t := ReplaceAll(s2h, '>', "&gt;"), ReplaceAll(s2t, '>', "&gt;");
      ReplaceAllAppend(s2h, s2t, '>', "&gt;");
      ReplaceAllAppend(s3h, s3t, '"', "&quot;");
      assert Esc(s) == Esc(head) + Esc(tail);
      EscOneChar(s[0]);
      EscIsCharwise(tail);
    }
  }

  /** Decoding undoes the escape of one character, whatever follows it. */
  lemma DecodeEscapeChar(x: char, rest: string)
    ensures DecodeReferences(EscapeChar(x) + rest) == [x] + DecodeReferences(rest)
  {
    var e := EscapeChar(x) + rest;
    if x == '&' {
      assert "&amp;" <= e && e[5..] == rest;
    } else if x == '<' {
      assert !("&amp;" <= e) by { assert e[1] == 'l'; }
      assert "&lt;" <= e && e[4..] == rest;
    } else if x == '>' {
      assert !("&amp;" <= e) by { assert e[1] == 'g'; }
      assert !("&lt;" <= e) by { assert e[1] == 'g'; }
      assert "&gt;" <= e && e[4..] == rest;
    } else if x == '"' {
      assert !("&amp;" <= e) by { assert e[1] == 'q'; }
      assert !("&lt;" <= e) by { assert e[1] == 'q'; }
      assert !("&gt;" <= e) by { assert e[1] == 'q'; }
      assert "&quot;" <= e && e[6..] == rest;
    } else {
      assert e[0] == x && e[1..] == rest;
    }
  }

  lemma {:induction false} DecodeEscapeCharwise(s: string)
    ensures DecodeReferences(EscapeCharwise(s)) == s
    decreases |s|
  {
    if |s| > 0 {
      var rest := EscapeCharwise(s[1..]);
      assert EscapeCharwise(s) == EscapeChar(s[0]) + rest;
      DecodeEscapeChar(s[0], rest);
      DecodeEscapeCharwise(s[1..]);
      assert s == [s[0]] + s[1..];
    }
  }

  /** Decoding the character references recovers the original value exactly. */
  lemma EscRoundTrip(s: string)
    ensures DecodeReferences(Esc(s)) == s
  {
    EscIsCharwise(s);
    DecodeEscapeCharwise(s);
  }

  // ---------------------------------------------------------------- the document

  /** A stretch of the template: fixed markup, or a value that is escaped on output. */
  datatype Piece = Markup(text: string) | Value(raw: string)

  function RenderPiece(p: Piece): string {
    match p
    case Markup(t) => t
    case Value(v) => Esc(v)
  }

  function Render(ps: seq<Piece>): string {
    if |ps| == 0 then "" else RenderPiece(ps[0]) + Render(ps[1..])
  }

  /** `<meta ATTR="KEY" content="`: the opening of a one-value meta tag. */
  function MetaOpen(attr: string, key: string): string {
    "<meta " + attr + "=\"" + key + "\" content=\""
  }

  const OgImageOpen := MetaOpen("property", "og:image")
  const TwitterImageOpen := MetaOpen("name", "twitter:image")
  const RefreshOpen := MetaOpen("http-equiv", "refresh") + "0; url="
  const HeadStart := [Markup("<!doctype html>\n"), Markup("<html>"), Markup("<head>"), Markup("<meta charset=\"utf-8\">\n")]
  const CanonicalOpen := "<link rel=\"canonical\" href=\""
  const LinkOpen := "<a href=\""
  const AttrEnd := "\">"
  const LineEnd := "\">\n"

  /** One `…content="VALUE">` line of the head. */
  function Line(open: string, value: string): seq<Piece> {
    [Markup(open), Value(value), Markup(LineEnd)]
  }

  /** The template up to and including the `og:url` line. */
  function HeadPieces(meta: PageMetadata): seq<Piece> {
    HeadStart
    + Line(CanonicalOpen, meta.canonical)
    + [Markup("<title>"), Value(meta.title), Markup("</title>\n")]
    + Line(MetaOpen("name", "description"), meta.description)
    + Line(MetaOpen("property", "og:title"), meta.title)
    + Line(MetaOpen("property", "og:description"), meta.description)
    + Line(MetaOpen("property", "og:type"), meta.ogType)
    + Line(MetaOpen("property", "og:url"), meta.ogUrl)
  }

  /** A tag emitted only for a non-empty image; its line stays, possibly empty. */
  function ImagePieces(open: string, image: string): seq<Piece> {
    (if image != "" then [Markup(open), Value(image), Markup(AttrEnd)] else []) + [Markup("\n")]
  }

  /** The `twitter:card`, `twitter:title` and `twitter:description` lines. */
  function TwitterPieces(meta: PageMetadata): seq<Piece> {
    Line(MetaOpen("name", "twitter:card"), meta.twitterCard)
    + Line(MetaOpen("name", "twitter:title"), meta.title)
    + Line(MetaOpen("name", "twitter:description"), meta.description)
  }

  /** The refresh directive, the end of the head and the fallback link. */
  function TailPieces(target: string): seq<Piece> {
    Line(RefreshOpen, target)
    + [Markup("</head>"), Markup("<body>If you are not redirected, ")]
    + [Markup(LinkOpen), Value(target), Markup("\">open on Instagram")]
    + [Markup("</a>."), Markup("</body>"), Markup("</html>")]
  }

  function PreviewPieces(meta: PageMetadata, target: string): seq<Piece> {
    HeadPieces(meta) + ImagePieces(OgImageOpen, meta.image)
    + TwitterPieces(meta) + ImagePieces(TwitterImageOpen, meta.image)
    + TailPieces(target)
  }

  /** `buildPreviewHtml(meta, targetUrl)`. */
  function BuildPreviewHtml(meta: PageMetadata, target: string): string {
    Render(PreviewPieces(meta, target))
  }

  lemma {:induction false} RenderAppend(a: seq<Piece>, b: seq<Piece>)
    ensures Render(a + b) == Render(a) + Render(b)
    decreases |a|
  {
    if |a| == 0 {
      assert a + b == b;
    } else {
      assert (a + b)[0] == a[0];
      assert (a + b)[1..] == a[1..] + b;
      RenderAppend(a[1..], b);
    }
  }

  /** The document, split at the two optional image tags. */
  lemma RenderPreview(meta: PageMetadata, target: string)
    ensures BuildPreviewHtml(meta, target) ==
      Render(HeadPieces(meta)) + Render(ImagePieces(OgImageOpen, meta.image))
      + Render(TwitterPieces(meta)) + Render(ImagePieces(TwitterImageOpen, meta.image))
      + Render(TailPieces(target))
  {
    var h, o, w, i, t := HeadPieces(meta), ImagePieces(OgImageOpen, meta.image),
      TwitterPieces(meta), ImagePieces(TwitterImageOpen, meta.image), TailPieces(target);
    RenderAppend(h + o + w + i, t);
    RenderAppend(h + o + w, i);
    RenderAppend(h + o, w);
    RenderAppend(h, o);
  }

  // ---------------------------------------------------------------- tag absence

  /**
   * Every `<` of `s` is followed, within `s`, by a character that departs
   * from `needle`: no occurrence of a `<`-led needle can start in `s`, even
   * when more text is appended.
   */
  ghost predicate Closed(s: string, needle: string) {
    forall p :: 0 <= p < |s| && s[p] == '<' ==> Departs(s, needle, p)
  }

  /** `needle`, laid over `s` at `p`, meets a different character of `s`. */
  ghost predicate Departs(s: string, needle: string, p: nat) {
    exists d :: 0 <= d < |needle| && p + d < |s| && s[p + d] != needle[d]
  }

  lemma DepartsExtend(a: string, b: string, needle: string, p: nat)
    requires Departs(a, needle, p)
    ensures Departs(a + b, needle, p)
  {
    var d :| 0 <= d < |needle| && p + d < |a| && a[p + d] != needle[d];
    assert (a + b)[p + d] == a[p + d];
  }

  lemma DepartsShift(a: string, b: string, needle: string, p: nat)
    requires Departs(b, needle, p)
    ensures Departs(a + b, needle, |a| + p)
  {
    var d :| 0 <= d < |needle| && p + d < |b| && b[p + d] != needle[d];
    assert (a + b)[|a| + p + d] == b[p + d];
  }

  /** `f` has one `<`, at its start. */
  predicate OneTag(f: string) {
    |f| > 0 && f[0] == '<' && forall q :: 0 < q < |f| ==> f[q] != '<'
  }

  predicate NoTag(f: string) {
    forall q :: 0 <= q < |f| ==> f[q] != '<'
  }

  predicate DiffersAt(f: string, needle: string, d: int) {
    0 <= d < |f| && d < |needle| && f[d] != needle[d]
  }

  /**
   * A markup piece cannot start `needle`. The template's tags part from the
   * image tags at offset 1 (another element), 6 (another attribute) or
   * 12, 19 or 20 (another key).
   */
  predicate MarkupAvoids(f: string, needle: string) {
    || NoTag(f)
    || (&& OneTag(f)
        && (|| DiffersAt(f, needle, 1) || DiffersAt(f, needle, 6) || DiffersAt(f, needle, 12)
            || DiffersAt(f, needle, 19) || DiffersAt(f, needle, 20)))
  }

  /** The two optional tags, up to their key. */
  const OgImageTag := "<meta property=\"og:image\""
  const TwitterImageTag := "<meta name=\"twitter:image\""

  /** The second characters of the template's tags: `<!doctype`, `<html`, `<meta`, `</head`, …. */
  const TagInitials := "!hmltb/a"

  /** Markup that is text, or one template tag. */
  predicate TemplateTag(f: string) {
    NoTag(f) || (OneTag(f) && |f| > 1 && f[1] in TagInitials)
  }

  /** A tag head the template never writes, such as `<script`, `<SCRIPT`, `<iframe` or `<img`. */
  predicate ForeignTag(needle: string) {
    |needle| > 1 && needle[0] == '<' && needle[1] !in TagInitials
  }

  /** Markup that is a template tag and can start neither image tag. */
  predicate SafeMarkup(f: string) {
    MarkupAvoids(f, OgImageTag) && MarkupAvoids(f, TwitterImageTag) && TemplateTag(f)
  }

  predicate AllSafe(ps: seq<Piece>) {
    forall k :: 0 <= k < |ps| ==> ps[k].Value? || SafeMarkup(ps[k].text)
  }

  /** Every markup piece is a template tag or text. */
  predicate AllTemplate(ps: seq<Piece>) {
    forall k :: 0 <= k < |ps| ==> ps[k].Value? || TemplateTag(ps[k].text)
  }

  /** No markup piece can start `needle`. */
  predicate AllAvoid(ps: seq<Piece>, needle: string) {
    forall k :: 0 <= k < |ps| ==> ps[k].Value? || MarkupAvoids(ps[k].text, needle)
  }

  lemma ClosedAppend(a: string, b: string, needle: string)
    requires Closed(a, needle) && Closed(b, needle)
    ensures Closed(a + b, needle)
  {
    var s := a + b;
    forall p | 0 <= p < |s| && s[p] == '<' ensures Departs(s, needle, p) {
      if p < |a| {
        assert a[p] == '<';
        DepartsExtend(a, b, needle, p);
      } else {
        assert b[p - |a|] == '<';
        DepartsShift(a, b, needle, p - |a|);
      }
    }
  }

  lemma PieceClosed(p: Piece, needle: string)
    requires p.Value? || MarkupAvoids(p.text, needle)
    ensures Closed(RenderPiece(p), needle)
  {
    var s := RenderPiece(p);
    if p.Markup? {
      forall q | 0 <= q < |s| && s[q] == '<' ensures Departs(s, needle, q) {
        assert q == 0;
        if DiffersAt(s, needle, 1) {
          assert s[q + 1] != needle[1];
        } else if DiffersAt(s, needle, 6) {
          assert s[q + 6] != needle[6];
        } else if DiffersAt(s, needle, 12) {
          assert s[q + 12] != needle[12];
        } else if DiffersAt(s, needle, 19) {
          assert s[q + 19] != needle[19];
        } else {
          assert s[q + 20] != needle[20];
        }
      }
    }
  }

  lemma {:induction false} RenderClosed(ps: seq<Piece>, needle: string)
    requires AllAvoid(ps, needle)
    ensures Closed(Render(ps), needle)
    decreases |ps|
  {
    if |ps| == 0 {
    } else {
      PieceClosed(ps[0], needle);
      assert AllAvoid(ps[1..], needle) by {
        assert forall k :: 0 <= k < |ps| - 1 ==> ps[1..][k] == ps[k + 1];
      }
      RenderClosed(ps[1..], needle);
      ClosedAppend(RenderPiece(ps[0]), Render(ps[1..]), needle);
    }
  }

  /** A closed string holds no occurrence of a `<`-led needle. */
  lemma ClosedExcludes(s: string, needle: string)
    requires |needle| > 0 && needle[0] == '<' && Closed(s, needle)
    ensures !IsSubstring(needle, s)
  {
    forall i ensures !OccursAt(needle, s, i) {
      if 0 <= i && i + |needle| <= |s| {
        if s[i] == '<' {
          assert Departs(s, needle, i);
          var d :| 0 <= d < |needle| && i + d < |s| && s[i + d] != needle[d];
          assert s[i..i + |needle|][d] != needle[d];
        } else {
          assert s[i..i + |needle|][0] != needle[0];
        }
      }
    }
  }

  // ---------------------------------------------------------------- the template is safe

  lemma OneTagAppend(a: string, b: string)
    requires OneTag(a) && NoTag(b)
    ensures OneTag(a + b)
  {
    assert forall q :: |a| <= q < |a + b| ==> (a + b)[q] == b[q - |a|];
  }

  lemma NoTagAppend(a: string, b: string)
    requires NoTag(a) && NoTag(b)
    ensures NoTag(a + b)
  {
    assert forall q :: |a| <= q < |a + b| ==> (a + b)[q] == b[q - |a|];
  }

  lemma MetaOpenOneTag(attr: string, key: string)
    requires NoTag(attr) && NoTag(key)
    ensures OneTag(MetaOpen(attr, key))
  {
    assert OneTag("<meta ");
    assert NoTag("=\"") && NoTag("\" content=\"");
    NoTagAppend(attr, "=\"");
    NoTagAppend(attr + "=\"", key);
    NoTagAppend(attr + "=\"" + key, "\" content=\"");
    OneTagAppend("<meta ", attr + "=\"" + key + "\" content=\"");
    assert MetaOpen(attr, key) == "<meta " + (attr + "=\"" + key + "\" content=\"");
  }

  lemma AllSafeAppend(a: seq<Piece>, b: seq<Piece>)
    requires AllSafe(a) && AllSafe(b)
    ensures AllSafe(a + b)
  {
  }

  lemma LineSafe(open: string, value: string)
    requires SafeMarkup(open)
    ensures AllSafe(Line(open, value))
  {
    assert SafeMarkup(LineEnd);
  }

  lemma HeadStartSafe()
    ensures SafeMarkup("<!doctype html>\n") && SafeMarkup("<html>") && SafeMarkup("<head>")
    ensures SafeMarkup("<meta charset=\"utf-8\">\n")
  {
  }

  lemma HeadMarkupSafe()
    ensures SafeMarkup("<!doctype html>\n") && SafeMarkup("<html>") && SafeMarkup("<head>")
    ensures SafeMarkup("<meta charset=\"utf-8\">\n") && SafeMarkup(CanonicalOpen)
    ensures SafeMarkup("<title>") && SafeMarkup("</title>\n")
  {
    HeadStartSafe();
  }

  lemma DescriptionOpenSafe()
    ensures SafeMarkup(MetaOpen("name", "description"))
  {
    MetaOpenOneTag("name", "description");
  }

  lemma OgTextOpensSafe()
    ensures SafeMarkup(MetaOpen("property", "og:title"))
    ensures SafeMarkup(MetaOpen("property", "og:description"))
  {
    MetaOpenOneTag("property", "og:title");
    MetaOpenOneTag("property", "og:description");
  }

  lemma OgOpensSafe()
    ensures SafeMarkup(MetaOpen("property", "og:title"))
    ensures SafeMarkup(MetaOpen("property", "og:description"))
    ensures SafeMarkup(MetaOpen("property", "og:type"))
    ensures SafeMarkup(MetaOpen("property", "og:url"))
  {
    OgTextOpensSafe();
    MetaOpenOneTag("property", "og:type");
    MetaOpenOneTag("property", "og:url");
  }

  lemma TwitterOpensSafe()
    ensures SafeMarkup(MetaOpen("name", "twitter:card"))
    ensures SafeMarkup(MetaOpen("name", "twitter:title"))
    ensures SafeMarkup(MetaOpen("name", "twitter:description"))
  {
    MetaOpenOneTag("name", "twitter:card");
    MetaOpenOneTag("name", "twitter:title");
    MetaOpenOneTag("name", "twitter:description");
  }

  lemma RefreshOpenSafe()
    ensures SafeMarkup(RefreshOpen)
  {
    MetaOpenOneTag("http-equiv", "refresh");
    OneTagAppend(MetaOpen("http-equiv", "refresh"), "0; url=");
  }

  lemma ClosingTagsSafe()
    ensures SafeMarkup("</a>.") && SafeMarkup("</body>") && SafeMarkup("</html>")
  {
  }

  lemma BodyMarkupSafe()
    ensures SafeMarkup("</head>") && SafeMarkup("<body>If you are not redirected, ")
    ensures SafeMarkup(LinkOpen) && SafeMarkup("\">open on Instagram")
  {
  }

  lemma TailMarkupSafe()
    ensures SafeMarkup(RefreshOpen) && SafeMarkup("</head>") && SafeMarkup("<body>If you are not redirected, ")
    ensures SafeMarkup(LinkOpen) && SafeMarkup("\">open on Instagram")
    ensures SafeMarkup("</a>.") && SafeMarkup("</body>") && SafeMarkup("</html>")
  {
    RefreshOpenSafe();
    BodyMarkupSafe();
    ClosingTagsSafe();
  }

  lemma HeadSafe(meta: PageMetadata)
    ensures AllSafe(HeadPieces(meta))
  {
    HeadMarkupSafe();
    DescriptionOpenSafe();
    OgOpensSafe();
    var p0 := HeadStart;
    var p1 := Line(CanonicalOpen, meta.canonical);
    var p2 := [Markup("<title>"), Value(meta.title), Markup("</title>\n")];
    var p3 := Line(MetaOpen("name", "description"), meta.description);
    var p4 := Line(MetaOpen("property", "og:title"), meta.title);
    var p5 := Line(MetaOpen("property", "og:description"), meta.description);
    var p6 := Line(MetaOpen("property", "og:type"), meta.ogType);
    var p7 := Line(MetaOpen("property", "og:url"), meta.ogUrl);
    LineSafe(CanonicalOpen, meta.canonical);
    LineSafe(MetaOpen("name", "description"), meta.description);
    LineSafe(MetaOpen("property", "og:title"), meta.title);
    LineSafe(MetaOpen("property", "og:description"), meta.description);
    LineSafe(MetaOpen("property", "og:type"), meta.ogType);
    LineSafe(MetaOpen("property", "og:url"), meta.ogUrl);
    AllSafeAppend(p0, p1);
    AllSafeAppend(p0 + p1, p2);
    AllSafeAppend(p0 + p1 + p2, p3);
    AllSafeAppend(p0 + p1 + p2 + p3, p4);
    AllSafeAppend(p0 + p1 + p2 + p3 + p4, p5);
    AllSafeAppend(p0 + p1 + p2 + p3 + p4 + p5, p6);
    AllSafeAppend(p0 + p1 + p2 + p3 + p4 + p5 + p6, p7);
  }

  lemma TwitterSafe(meta: PageMetadata)
    ensures AllSafe(TwitterPieces(meta))
  {
    TwitterOpensSafe();
    var p0 := Line(MetaOpen("name", "twitter:card"), meta.twitterCard);
    var p1 := Line(MetaOpen("name", "twitter:title"), meta.title);
    var p2 := Line(MetaOpen("name", "twitter:description"), meta.description);
    LineSafe(MetaOpen("name", "twitter:card"), meta.twitterCard);
    LineSafe(MetaOpen("name", "twitter:title"), meta.title);
    LineSafe(MetaOpen("name", "twitter:description"), meta.description);
    AllSafeAppend(p0, p1);
    AllSafeAppend(p0 + p1, p2);
  }

  lemma TailSafe(target: string)
    ensures AllSafe(TailPieces(target))
  {
    TailMarkupSafe();
    var p0 := Line(RefreshOpen, target);
    var p1 := [Markup("</head>"), Markup("<body>If you are not redirected, ")];
    var p2 := [Markup(LinkOpen), Value(target), Markup("\">open on Instagram")];
    var p3 := [Markup("</a>."), Markup("</body>"), Markup("</html>")];
    LineSafe(RefreshOpen, target);
    AllSafeAppend(p0, p1);
    AllSafeAppend(p0 + p1, p2);
    AllSafeAppend(p0 + p1 + p2, p3);
  }

  lemma RenderOne(p: Piece)
    ensures Render([p]) == RenderPiece(p)
  {
    assert [p][1..] == [];
  }

  lemma RenderImagePieces(open: string, image: string)
    ensures Render(ImagePieces(open, image)) == (if image != "" then open + Esc(image) + AttrEnd else "") + "\n"
  {
    RenderOne(Markup("\n"));
    if image != "" {
      var tag := [Markup(open), Value(image), Markup(AttrEnd)];
      assert tag == [Markup(open)] + [Value(image)] + [Markup(AttrEnd)];
      RenderAppend(tag, [Markup("\n")]);
      RenderAppend([Markup(open)] + [Value(image)], [Markup(AttrEnd)]);
      RenderAppend([Markup(open)], [Value(image)]);
      RenderOne(Markup(open));
      RenderOne(Value(image));
      RenderOne(Markup(AttrEnd));
    } else {
      assert ImagePieces(open, image) == [Markup("\n")];
    }
  }

  lemma OccursInMiddle(x: string, a: string, y: string)
    ensures IsSubstring(a, x + a + y)
  {
    assert (x + a + y)[|x|..|x| + |a|] == a;
    assert OccursAt(a, x + a + y, |x|);
  }

  /** The image tag needles are the heads of the emitted image tags. */
  lemma ImageOpensStartWithTags()
    ensures OgImageOpen == OgImageTag + " content=\""
    ensures TwitterImageOpen == TwitterImageTag + " content=\""
  {
  }

  /** Without an image, every piece of the document is safe markup or a value. */
  lemma PreviewSafeWithoutImage(meta: PageMetadata, target: string)
    requires meta.image == ""
    ensures AllSafe(PreviewPieces(meta, target))
  {
    var h, w, t := HeadPieces(meta), TwitterPieces(meta), TailPieces(target);
    var o, i := ImagePieces(OgImageOpen, meta.image), ImagePieces(TwitterImageOpen, meta.image);
    assert o == [Markup("\n")] && i == [Markup("\n")];
    assert SafeMarkup("\n");
    HeadSafe(meta);
    TwitterSafe(meta);
    TailSafe(target);
    AllSafeAppend(h, o);
    AllSafeAppend(h + o, w);
    AllSafeAppend(h + o + w, i);
    AllSafeAppend(h + o + w + i, t);
  }

  /** No image, no image tag: nothing else in the template begins like one. */
  lemma NoImageNoImageTags(meta: PageMetadata, target: string)
    requires meta.image == ""
    ensures !IsSubstring(OgImageTag, BuildPreviewHtml(meta, target))
    ensures !IsSubstring(TwitterImageTag, BuildPreviewHtml(meta, target))
  {
    PreviewSafeWithoutImage(meta, target);
    SafeAvoidsImageTags(PreviewPieces(meta, target));
    RenderClosed(PreviewPieces(meta, target), OgImageTag);
    ClosedExcludes(BuildPreviewHtml(meta, target), OgImageTag);
    RenderClosed(PreviewPieces(meta, target), TwitterImageTag);
    ClosedExcludes(BuildPreviewHtml(meta, target), TwitterImageTag);
  }

  lemma SafeAvoidsImageTags(ps: seq<Piece>)
    requires AllSafe(ps)
    ensures AllAvoid(ps, OgImageTag) && AllAvoid(ps, TwitterImageTag) && AllTemplate(ps)
  {
  }

  lemma TemplateAvoidsForeign(ps: seq<Piece>, needle: string)
    requires AllTemplate(ps) && ForeignTag(needle)
    ensures AllAvoid(ps, needle)
  {
    forall k | 0 <= k < |ps| && ps[k].Markup? && !NoTag(ps[k].text)
      ensures MarkupAvoids(ps[k].text, needle)
    {
      assert DiffersAt(ps[k].text, needle, 1);
    }
  }

  lemma AllTemplateAppend(a: seq<Piece>, b: seq<Piece>)
    requires AllTemplate(a) && AllTemplate(b)
    ensures AllTemplate(a + b)
  {
  }

  /** An image line, present or not, is template markup around a value. */
  lemma ImagePiecesTemplate(open: string, image: string)
    requires OneTag(open) && |open| > 1 && open[1] == 'm'
    ensures AllTemplate(ImagePieces(open, image))
  {
    assert TemplateTag(AttrEnd) && TemplateTag("\n");
  }

  /** With or without an image, every markup piece of the document is a template tag or text. */
  lemma PreviewTemplate(meta: PageMetadata, target: string)
    ensures AllTemplate(PreviewPieces(meta, target))
  {
    var h, w, t := HeadPieces(meta), TwitterPieces(meta), TailPieces(target);
    var o, i := ImagePieces(OgImageOpen, meta.image), ImagePieces(TwitterImageOpen, meta.image);
    HeadSafe(meta);
    TwitterSafe(meta);
    TailSafe(target);
    SafeAvoidsImageTags(h);
    SafeAvoidsImageTags(w);
    SafeAvoidsImageTags(t);
    MetaOpenOneTag("property", "og:image");
    MetaOpenOneTag("name", "twitter:image");
    ImagePiecesTemplate(OgImageOpen, meta.image);
    ImagePiecesTemplate(TwitterImageOpen, meta.image);
    AllTemplateAppend(h, o);
    AllTemplateAppend(h + o, w);
    AllTemplateAppend(h + o + w, i);
    AllTemplateAppend(h + o + w + i, t);
  }

  /**
   * Values are escaped, so every tag of the document is one the template
   * writes: no tag the template never writes (`<script`, `<iframe`, …)
   * occurs, whatever the metadata holds.
   */
  lemma NoForeignTag(meta: PageMetadata, target: string, needle: string)
    requires ForeignTag(needle)
    ensures !IsSubstring(needle, BuildPreviewHtml(meta, target))
  {
    PreviewTemplate(meta, target);
    TemplateAvoidsForeign(PreviewPieces(meta, target), needle);
    RenderClosed(PreviewPieces(meta, target), needle);
    ClosedExcludes(BuildPreviewHtml(meta, target), needle);
  }

  /** A title such as `<script>alert(1)</script>` cannot inject a script element. */
  lemma NoScriptTag(meta: PageMetadata, target: string)
    ensures !IsSubstring("<script", BuildPreviewHtml(meta, target))
    ensures !IsSubstring("<SCRIPT", BuildPreviewHtml(meta, target))
  {
    NoForeignTag(meta, target, "<script");
    NoForeignTag(meta, target, "<SCRIPT");
  }

  // ---------------------------------------------------------------- values add no markup

  /** A value with its text removed; markup as it is. */
  function Blank(p: Piece): Piece {
    match p
    case Markup(_) => p
    case Value(_) => Value("")
  }

  /** The template with every value emptied: the markup alone. */
  function Skeleton(ps: seq<Piece>): seq<Piece> {
    if |ps| == 0 then [] else [Blank(ps[0])] + Skeleton(ps[1..])
  }

  /** A character that opens a tag, closes one, or delimits an attribute value. */
  predicate IsMarkupChar(c: char) {
    c == '<' || c == '>' || c == '"'
  }

  /**
   * Escaped values contribute no `<`, `>` or `"`: each occurs in the rendered
   * pieces exactly as often as in their skeleton.
   */
  lemma {:induction false} ValuesAddNoMarkup(ps: seq<Piece>)
    ensures forall c :: IsMarkupChar(c) ==> multiset(Render(ps))[c] == multiset(Render(Skeleton(ps)))[c]
    decreases |ps|
  {
    if |ps| > 0 {
      ValuesAddNoMarkup(ps[1..]);
      var sk := Skeleton(ps);
      assert sk[0] == Blank(ps[0]) && sk[1..] == Skeleton(ps[1..]);
      assert Render(sk) == RenderPiece(Blank(ps[0])) + Render(Skeleton(ps[1..]));
      forall c | IsMarkupChar(c)
        ensures multiset(RenderPiece(ps[0]))[c] == multiset(RenderPiece(Blank(ps[0])))[c]
      {
        if ps[0].Value? {
          assert c !in Esc(ps[0].raw);
          assert RenderPiece(Blank(ps[0])) == "";
        }
      }
    }
  }

  /**
   * Every `<`, `>` and `"` of the preview document is one the template writes:
   * the document holds exactly as many as the template with all values emptied,
   * so no value can add a tag (`<body onload=…>`, a second refresh directive, …)
   * or leave an attribute.
   */
  lemma TemplateOwnsMarkup(meta: PageMetadata, target: string)
    ensures forall c :: IsMarkupChar(c) ==>
      multiset(BuildPreviewHtml(meta, target))[c] == multiset(Render(Skeleton(PreviewPieces(meta, target))))[c]
  {
    ValuesAddNoMarkup(PreviewPieces(meta, target));
  }

  /** The same markup at the same places, values aside. */
  predicate SameShape(ps: seq<Piece>, qs: seq<Piece>) {
    |ps| == |qs| && forall k :: 0 <= k < |ps| ==> Blank(ps[k]) == Blank(qs[k])
  }

  lemma SameShapeAppend(a: seq<Piece>, b: seq<Piece>, a': seq<Piece>, b': seq<Piece>)
    requires SameShape(a, a') && SameShape(b, b')
    ensures SameShape(a + b, a' + b')
  {
    forall k | 0 <= k < |a + b| ensures Blank((a + b)[k]) == Blank((a' + b')[k]) {
      if k < |a| {
        assert (a + b)[k] == a[k] && (a' + b')[k] == a'[k];
      } else {
        assert (a + b)[k] == b[k - |a|] && (a' + b')[k] == b'[k - |a|];
      }
    }
  }

  lemma {:induction false} SameShapeSkeleton(ps: seq<Piece>, qs: seq<Piece>)
    requires SameShape(ps, qs)
    ensures Skeleton(ps) == Skeleton(qs)
    decreases |ps|
  {
    if |ps| > 0 {
      assert SameShape(ps[1..], qs[1..]) by {
        forall k | 0 <= k < |ps| - 1 ensures Blank(ps[1..][k]) == Blank(qs[1..][k]) {
          assert ps[1..][k] == ps[k + 1] && qs[1..][k] == qs[k + 1];
        }
      }
      SameShapeSkeleton(ps[1..], qs[1..]);
      assert Blank(ps[0]) == Blank(qs[0]);
    }
  }

  lemma LineShape(open: string, v: string, v': string)
    ensures SameShape(Line(open, v), Line(open, v'))
  {
  }

  lemma HeadShape(meta: PageMetadata, meta': PageMetadata)
    ensures SameShape(HeadPieces(meta), HeadPieces(meta'))
  {
    var p0 := HeadStart;
    var p1, q1 := Line(CanonicalOpen, meta.canonical), Line(CanonicalOpen, meta'.canonical);
    var p2 := [Markup("<title>"), Value(meta.title), Markup("</title>\n")];
    var q2 := [Markup("<title>"), Value(meta'.title), Markup("</title>\n")];
    var p3, q3 := Line(MetaOpen("name", "description"), meta.description), Line(MetaOpen("name", "description"), meta'.description);
    var p4, q4 := Line(MetaOpen("property", "og:title"), meta.title), Line(MetaOpen("property", "og:title"), meta'.title);
    var p5, q5 := Line(MetaOpen("property", "og:description"), meta.description), Line(MetaOpen("property", "og:description"), meta'.description);
    var p6, q6 := Line(MetaOpen("property", "og:type"), meta.ogType), Line(MetaOpen("property", "og:type"), meta'.ogType);
    var p7, q7 := Line(MetaOpen("property", "og:url"), meta.ogUrl), Line(MetaOpen("property", "og:url"), meta'.ogUrl);
    assert SameShape(p0, p0) && SameShape(p2, q2);
    SameShapeAppend(p0, p1, p0, q1);
    SameShapeAppend(p0 + p1, p2, p0 + q1, q2);
    SameShapeAppend(p0 + p1 + p2, p3, p0 + q1 + q2, q3);
    SameShapeAppend(p0 + p1 + p2 + p3, p4, p0 + q1 + q2 + q3, q4);
    SameShapeAppend(p0 + p1 + p2 + p3 + p4, p5, p0 + q1 + q2 + q3 + q4, q5);
    SameShapeAppend(p0 + p1 + p2 + p3 + p4 + p5, p6, p0 + q1 + q2 + q3 + q4 + q5, q6);
    SameShapeAppend(p0 + p1 + p2 + p3 + p4 + p5 + p6, p7, p0 + q1 + q2 + q3 + q4 + q5 + q6, q7);
  }

  lemma TwitterShape(meta: PageMetadata, meta': PageMetadata)
    ensures SameShape(TwitterPieces(meta), TwitterPieces(meta'))
  {
    var p0, q0 := Line(MetaOpen("name", "twitter:card"), meta.twitterCard), Line(MetaOpen("name", "twitter:card"), meta'.twitterCard);
    var p1, q1 := Line(MetaOpen("name", "twitter:title"), meta.title), Line(MetaOpen("name", "twitter:title"), meta'.title);
    var p2, q2 := Line(MetaOpen("name", "twitter:description"), meta.description), Line(MetaOpen("name", "twitter:description"), meta'.description);
    SameShapeAppend(p0, p1, q0, q1);
    SameShapeAppend(p0 + p1, p2, q0 + q1, q2);
  }

  lemma TailShape(target: string, target': string)
    ensures SameShape(TailPieces(target), TailPieces(target'))
  {
    var p0, q0 := Line(RefreshOpen, target), Line(RefreshOpen, target');
    var p1 := [Markup("</head>"), Markup("<body>If you are not redirected, ")];
    var p2 := [Markup(LinkOpen), Value(target), Markup("\">open on Instagram")];
    var q2 := [Markup(LinkOpen), Value(target'), Markup("\">open on Instagram")];
    var p3 := [Markup("</a>."), Markup("</body>"), Markup("</html>")];
    assert SameShape(p1, p1) && SameShape(p2, q2) && SameShape(p3, p3);
    SameShapeAppend(p0, p1, q0, p1);
    SameShapeAppend(p0 + p1, p2, q0 + p1, q2);
    SameShapeAppend(p0 + p1 + p2, p3, q0 + p1 + q2, p3);
  }

  lemma ImageShape(open: string, image: string, image': string)
    requires (image == "") == (image' == "")
    ensures SameShape(ImagePieces(open, image), ImagePieces(open, image'))
  {
  }

  /** The preview's skeleton depends on nothing but whether there is an image. */
  lemma PreviewShape(meta: PageMetadata, target: string, meta': PageMetadata, target': string)
    requires (meta.image == "") == (meta'.image == "")
    ensures Skeleton(PreviewPieces(meta, target)) == Skeleton(PreviewPieces(meta', target'))
  {
    var h, h' := HeadPieces(meta), HeadPieces(meta');
    var o, o' := ImagePieces(OgImageOpen, meta.image), ImagePieces(OgImageOpen, meta'.image);
    var w, w' := TwitterPieces(meta), TwitterPieces(meta');
    var i, i' := ImagePieces(TwitterImageOpen, meta.image), ImagePieces(TwitterImageOpen, meta'.image);
    var t, t' := TailPieces(target), TailPieces(target');
    HeadShape(meta, meta');
    ImageShape(OgImageOpen, meta.image, meta'.image);
    TwitterShape(meta, meta');
    ImageShape(TwitterImageOpen, meta.image, meta'.image);
    TailShape(target, target');
    SameShapeAppend(h, o, h', o');
    SameShapeAppend(h + o, w, h' + o', w');
    SameShapeAppend(h + o + w, i, h' + o' + w', i');
    SameShapeAppend(h + o + w + i, t, h' + o' + w' + i', t');
    SameShapeSkeleton(PreviewPieces(meta, target), PreviewPieces(meta', target'));
  }

  /**
   * Values cannot change the document's markup: two previews with or both
   * without an image hold the same number of `<`, `>` and `"`, whatever their
   * titles, descriptions, URLs and targets.
   */
  lemma MarkupIndependentOfValues(meta: PageMetadata, target: string, meta': PageMetadata, target': string)
    requires (meta.image == "") == (meta'.image == "")
    ensures forall c :: IsMarkupChar(c) ==>
      multiset(BuildPreviewHtml(meta, target))[c] == multiset(BuildPreviewHtml(meta', target'))[c]
  {
    TemplateOwnsMarkup(meta, target);
    TemplateOwnsMarkup(meta', target');
    PreviewShape(meta, target, meta', target');
  }

  /** Two tags, each followed by a newline, between other parts of a document. */
  lemma TwoLinesInDocument(h: string, o: string, w: string, i: string, t: string, a: string, b: string)
    requires o == a + "\n" && i == b + "\n"
    ensures IsSubstring(a, h + o + w + i + t)
    ensures IsSubstring(b, h + o + w + i + t)
  {
    assert h + o + w + i + t == h + a + ("\n" + w + i + t);
    OccursInMiddle(h, a, "\n" + w + i + t);
    assert h + o + w + i + t == (h + o + w) + b + ("\n" + t);
    OccursInMiddle(h + o + w, b, "\n" + t);
  }

  /** With an image, both image tags are emitted, carrying the escaped URL. */
  lemma ImageEmitsImageTags(meta: PageMetadata, target: string)
    requires meta.image != ""
    ensures IsSubstring(OgImageOpen + Esc(meta.image) + AttrEnd, BuildPreviewHtml(meta, target))
    ensures IsSubstring(TwitterImageOpen + Esc(meta.image) + AttrEnd, BuildPreviewHtml(meta, target))
  {
    RenderPreview(meta, target);
    RenderImagePieces(OgImageOpen, meta.image);
    RenderImagePieces(TwitterImageOpen, meta.image);
    TwoLinesInDocument(Render(HeadPieces(meta)), Render(ImagePieces(OgImageOpen, meta.image)),
      Render(TwitterPieces(meta)), Render(ImagePieces(TwitterImageOpen, meta.image)),
      Render(TailPieces(target)),
      OgImageOpen + Esc(meta.image) + AttrEnd, TwitterImageOpen + Esc(meta.image) + AttrEnd);
  }

  /** A document holding an emitted image tag holds the tag's needle. */
  lemma EmittedTagHoldsNeedle(tag: string, image: string, doc: string)
    requires IsSubstring(tag + " content=\"" + Esc(image) + AttrEnd, doc)
    ensures IsSubstring(tag, doc)
  {
    var rest := " content=\"" + Esc(image) + AttrEnd;
    assert tag + " content=\"" + Esc(image) + AttrEnd == tag + rest;
    assert "" + tag + rest == tag + rest;
    OccursInMiddle("", tag, rest);
    SubstringTransitive(tag, tag + rest, doc);
  }

  /**
   * The `og:image` and `twitter:image` tags appear in the document exactly
   * when the image is non-empty.
   */
  lemma ImageTagsIffImage(meta: PageMetadata, target: string)
    ensures IsSubstring(OgImageTag, BuildPreviewHtml(meta, target)) <==> meta.image != ""
    ensures IsSubstring(TwitterImageTag, BuildPreviewHtml(meta, target)) <==> meta.image != ""
  {
    if meta.image == "" {
      NoImageNoImageTags(meta, target);
    } else {
      ImageEmitsImageTags(meta, target);
      ImageOpensStartWithTags();
      EmittedTagHoldsNeedle(OgImageTag, meta.image, BuildPreviewHtml(meta, target));
      EmittedTagHoldsNeedle(TwitterImageTag, meta.image, BuildPreviewHtml(meta, target));
    }
  }

  // ---------------------------------------------------------------- emitted values

  /** A value between two markup pieces renders as the value, escaped, between them. */
  lemma RenderTriple(open: string, v: string, close: string)
    ensures Render([Markup(open), Value(v), Markup(close)]) == open + Esc(v) + close
  {
    var ps := [Markup(open), Value(v), Markup(close)];
    assert ps[1..] == [Value(v), Markup(close)];
    assert ps[1..][1..] == [Markup(close)];
    assert ps[1..][1..][1..] == [];
    assert Render([Markup(close)]) == close + "";
  }

  /** Both halves of a concatenation occur in it. */
  lemma EndsOccur(x: string, y: string)
    ensures IsSubstring(x, x + y) && IsSubstring(y, x + y)
  {
    assert (x + y)[..|x|] == x;
    assert OccursAt(x, x + y, 0);
    assert (x + y)[|x|..|x| + |y|] == y;
    assert OccursAt(y, x + y, |x|);
  }

  /** Both halves of a piece list whose rendering occurs in `doc` occur in `doc`. */
  lemma SplitPart(a: seq<Piece>, b: seq<Piece>, doc: string)
    requires IsSubstring(Render(a + b), doc)
    ensures IsSubstring(Render(a), doc) && IsSubstring(Render(b), doc)
  {
    RenderAppend(a, b);
    EndsOccur(Render(a), Render(b));
    SubstringTransitive(Render(a), Render(a + b), doc);
    SubstringTransitive(Render(b), Render(a + b), doc);
  }

  lemma PartsOfFive(h: string, o: string, w: string, i: string, t: string)
    ensures IsSubstring(h, h + o + w + i + t)
    ensures IsSubstring(w, h + o + w + i + t)
    ensures IsSubstring(t, h + o + w + i + t)
  {
    OccursInMiddle("", h, o + w + i + t);
    assert "" + h + (o + w + i + t) == h + o + w + i + t;
    OccursInMiddle(h + o, w, i + t);
    assert h + o + w + (i + t) == h + o + w + i + t;
    OccursInMiddle(h + o + w + i, t, "");
    assert h + o + w + i + t + "" == h + o + w + i + t;
  }

  /** The head, the Twitter Card lines and the tail each occur in the document. */
  lemma DocumentParts(meta: PageMetadata, target: string)
    ensures IsSubstring(Render(HeadPieces(meta)), BuildPreviewHtml(meta, target))
    ensures IsSubstring(Render(TwitterPieces(meta)), BuildPreviewHtml(meta, target))
    ensures IsSubstring(Render(TailPieces(target)), BuildPreviewHtml(meta, target))
  {
    RenderPreview(meta, target);
    PartsOfFive(Render(HeadPieces(meta)), Render(ImagePieces(OgImageOpen, meta.image)),
      Render(TwitterPieces(meta)), Render(ImagePieces(TwitterImageOpen, meta.image)),
      Render(TailPieces(target)));
  }

  /** The title element and the lines of the head after it each occur in the document. */
  lemma HeadLinesInDocument(meta: PageMetadata, target: string)
    ensures var doc := BuildPreviewHtml(meta, target);
      && IsSubstring(Render(Line(CanonicalOpen, meta.canonical)), doc)
      && IsSubstring(Render([Markup("<title>"), Value(meta.title), Markup("</title>\n")]), doc)
      && IsSubstring(Render(Line(MetaOpen("name", "description"), meta.description)), doc)
      && IsSubstring(Render(Line(MetaOpen("property", "og:title"), meta.title)), doc)
      && IsSubstring(Render(Line(MetaOpen("property", "og:description"), meta.description)), doc)
      && IsSubstring(Render(Line(MetaOpen("property", "og:type"), meta.ogType)), doc)
      && IsSubstring(Render(Line(MetaOpen("property", "og:url"), meta.ogUrl)), doc)
  {
    var doc := BuildPreviewHtml(meta, target);
    DocumentParts(meta, target);
    var x1 := HeadStart + Line(CanonicalOpen, meta.canonical);
    var x2 := x1 + [Markup("<title>"), Value(meta.title), Markup("</title>\n")];
    var x3 := x2 + Line(MetaOpen("name", "description"), meta.description);
    var x4 := x3 + Line(MetaOpen("property", "og:title"), meta.title);
    var x5 := x4 + Line(MetaOpen("property", "og:description"), meta.description);
    var x6 := x5 + Line(MetaOpen("property", "og:type"), meta.ogType);
    SplitPart(x6, Line(MetaOpen("property", "og:url"), meta.ogUrl), doc);
    SplitPart(x5, Line(MetaOpen("property", "og:type"), meta.ogType), doc);
    SplitPart(x4, Line(MetaOpen("property", "og:description"), meta.description), doc);
    SplitPart(x3, Line(MetaOpen("property", "og:title"), meta.title), doc);
    SplitPart(x2, Line(MetaOpen("name", "description"), meta.description), doc);
    SplitPart(x1, [Markup("<title>"), Value(meta.title), Markup("</title>\n")], doc);
    SplitPart(HeadStart, Line(CanonicalOpen, meta.canonical), doc);
  }

  /** The title goes, escaped, into `<title>` and `og:title`. */
  lemma TitleEmitted(meta: PageMetadata, target: string)
    ensures IsSubstring("<title>" + Esc(meta.title) + "</title>\n", BuildPreviewHtml(meta, target))
    ensures IsSubstring(MetaOpen("property", "og:title") + Esc(meta.title) + LineEnd, BuildPreviewHtml(meta, target))
  {
    HeadLinesInDocument(meta, target);
    RenderTriple("<title>", meta.title, "</title>\n");
    RenderTriple(MetaOpen("property", "og:title"), meta.title, LineEnd);
  }

  /** The description goes, escaped, into `description` and `og:description`. */
  lemma DescriptionEmitted(meta: PageMetadata, target: string)
    ensures IsSubstring(MetaOpen("name", "description") + Esc(meta.description) + LineEnd, BuildPreviewHtml(meta, target))
    ensures IsSubstring(MetaOpen("property", "og:description") + Esc(meta.description) + LineEnd, BuildPreviewHtml(meta, target))
  {
    HeadLinesInDocument(meta, target);
    RenderTriple(MetaOpen("name", "description"), meta.description, LineEnd);
    RenderTriple(MetaOpen("property", "og:description"), meta.description, LineEnd);
  }

  /** The canonical URL fills the canonical link. */
  lemma CanonicalEmitted(meta: PageMetadata, target: string)
    ensures IsSubstring(CanonicalOpen + Esc(meta.canonical) + LineEnd, BuildPreviewHtml(meta, target))
  {
    HeadLinesInDocument(meta, target);
    RenderTriple(CanonicalOpen, meta.canonical, LineEnd);
  }

  /** The Open Graph type and URL fill their tags. */
  lemma TypeAndUrlEmitted(meta: PageMetadata, target: string)
    ensures IsSubstring(MetaOpen("property", "og:type") + Esc(meta.ogType) + LineEnd, BuildPreviewHtml(meta, target))
    ensures IsSubstring(MetaOpen("property", "og:url") + Esc(meta.ogUrl) + LineEnd, BuildPreviewHtml(meta, target))
  {
    HeadLinesInDocument(meta, target);
    RenderTriple(MetaOpen("property", "og:type"), meta.ogType, LineEnd);
    RenderTriple(MetaOpen("property", "og:url"), meta.ogUrl, LineEnd);
  }

  /** The Twitter Card lines carry the escaped card type, title and description. */
  lemma TwitterFieldsEmitted(meta: PageMetadata, target: string)
    ensures IsSubstring(MetaOpen("name", "twitter:card") + Esc(meta.twitterCard) + LineEnd, BuildPreviewHtml(meta, target))
    ensures IsSubstring(MetaOpen("name", "twitter:title") + Esc(meta.title) + LineEnd, BuildPreviewHtml(meta, target))
    ensures IsSubstring(MetaOpen("name", "twitter:description") + Esc(meta.description) + LineEnd, BuildPreviewHtml(meta, target))
  {
    var doc := BuildPreviewHtml(meta, target);
    DocumentParts(meta, target);
    var card := Line(MetaOpen("name", "twitter:card"), meta.twitterCard);
    var title := Line(MetaOpen("name", "twitter:title"), meta.title);
    var description := Line(MetaOpen("name", "twitter:description"), meta.description);
    SplitPart(card + title, description, doc);
    SplitPart(card, title, doc);
    RenderTriple(MetaOpen("name", "twitter:card"), meta.twitterCard, LineEnd);
    RenderTriple(MetaOpen("name", "twitter:title"), meta.title, LineEnd);
    RenderTriple(MetaOpen("name", "twitter:description"), meta.description, LineEnd);
  }

  /**
   * Both the `refresh` directive and the fallback link point at the target:
   * the escaped URL, which cannot end the attribute early and decodes back
   * to the target.
   */
  lemma RefreshRedirectsToTarget(meta: PageMetadata, target: string)
    ensures var doc := BuildPreviewHtml(meta, target);
      && IsSubstring(RefreshOpen + Esc(target) + LineEnd, doc)
      && IsSubstring(LinkOpen + Esc(target) + "\">open on Instagram", doc)
      && '"' !in Esc(target)
      && DecodeReferences(Esc(target)) == target
  {
    var doc := BuildPreviewHtml(meta, target);
    DocumentParts(meta, target);
    var refresh := Line(RefreshOpen, target);
    var close := [Markup("</head>"), Markup("<body>If you are not redirected, ")];
    var link := [Markup(LinkOpen), Value(target), Markup("\">open on Instagram")];
    var end := [Markup("</a>."), Markup("</body>"), Markup("</html>")];
    SplitPart(refresh + close + link, end, doc);
    SplitPart(refresh + close, link, doc);
    SplitPart(refresh, close, doc);
    RenderTriple(RefreshOpen, target, LineEnd);
    RenderTriple(LinkOpen, target, "\">open on Instagram");
    EscRoundTrip(target);
  }
}
