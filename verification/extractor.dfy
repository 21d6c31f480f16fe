/**
 * Metadata extraction without the network and the HTML tokenizer: the
 * tokenizer's callbacks arrive as a sequence of parse events, are folded into
 * one string map, and the seven-field page record is derived from that map
 * through `||` fallback chains, with a `<title>` scan of the raw HTML as the
 * last resort for the title.
 */
module Extractor {
  import opened Wrappers
  import opened Text

  /** One callback of the streaming rewriter, in document order. */
  datatype ParseEvent =
    | TitleText(text: string)
    | MetaTag(name: Option<string>, property: Option<string>, content: Option<string>)
    | CanonicalLink(href: Option<string>)

  /** The single shared map the callbacks write to. */
  type Collected = map<string, string>

  const TitleKey := "_title"
  const CanonicalKey := "canonical"

  /**
   * The one key the map cannot hold: on a plain object, assigning a string
   * to `__proto__` goes to the inherited prototype setter, which ignores it.
   */
  const ProtoKey := "__proto__"

  /** Reading a key through `||`: an absent key reads as the empty string. */
  function Get(c: Collected, key: string): string {
    if key in c then c[key] else ""
  }

  /** The key of a meta tag: lower-cased `property || name || ""`. */
  function MetaKey(name: Option<string>, property: Option<string>): string {
    Lower(if Present(property) then property.value
          else if Present(name) then name.value
          else "")
  }

  /**
   * One callback. A canonical link without `href` stores "" where the source
   * stores null; every later read goes through `||`, which treats both alike.
   * A meta tag keyed `__proto__` stores nothing.
   */
  function Step(c: Collected, e: ParseEvent): Collected {
    match e
    case TitleText(t) => c[TitleKey := Get(c, TitleKey) + t]
    case MetaTag(n, p, v) => if Present(v) && MetaKey(n, p) != ProtoKey then c[MetaKey(n, p) := v.value] else c
    case CanonicalLink(h) => c[CanonicalKey := h.GetOr("")]
  }

  /** The map after all events, folded in document order. */
  function Collect(events: seq<ParseEvent>): Collected {
    if |events| == 0 then map[]
    else Step(Collect(events[..|events| - 1]), events[|events| - 1])
  }

  /** The value an event stores under `key`, overwriting what was there (title text appends instead). */
  function Writes(e: ParseEvent, key: string): Option<string> {
    match e
    case TitleText(_) => None
    case MetaTag(n, p, v) => if Present(v) && MetaKey(n, p) == key && key != ProtoKey then Some(v.value) else None
    case CanonicalLink(h) => if key == CanonicalKey then Some(h.GetOr("")) else None
  }

  /** The title chunks of `events`, concatenated in document order. */
  function TitleTexts(events: seq<ParseEvent>): string {
    if |events| == 0 then ""
    else TitleTexts(events[..|events| - 1])
         + (if events[|events| - 1].TitleText? then events[|events| - 1].text else "")
  }

  /** How one step treats a key other than the title slot. */
  lemma StepOtherKey(c: Collected, e: ParseEvent, key: string)
    requires key != TitleKey
    ensures Writes(e, key).Some? ==> key in Step(c, e) && Step(c, e)[key] == Writes(e, key).value
    ensures Writes(e, key).None? ==> (key in Step(c, e) <==> key in c)
    ensures Writes(e, key).None? && key in c ==> Step(c, e)[key] == c[key]
  {
  }

  /** The last event that writes a key decides its value: later entries overwrite earlier ones. */
  lemma {:induction false} LastWriteWins(events: seq<ParseEvent>, key: string, i: int, v: string)
    requires key != TitleKey
    requires 0 <= i < |events| && Writes(events[i], key) == Some(v)
    requires forall j :: i < j < |events| ==> Writes(events[j], key).None?
    ensures key in Collect(events) && Collect(events)[key] == v
    decreases |events|
  {
    var n := |events| - 1;
    var prefix := events[..n];
    StepOtherKey(Collect(prefix), events[n], key);
    if i < n {
      assert forall j :: i < j < |prefix| ==> prefix[j] == events[j];
      LastWriteWins(prefix, key, i, v);
    }
  }

  /** A key no event writes is absent from the map. */
  lemma {:induction false} UnwrittenKeyAbsent(events: seq<ParseEvent>, key: string)
    requires key != TitleKey
    requires forall j :: 0 <= j < |events| ==> Writes(events[j], key).None?
    ensures key !in Collect(events)
    decreases |events|
  {
    if |events| > 0 {
      var n := |events| - 1;
      assert forall j :: 0 <= j < n ==> events[..n][j] == events[j];
      UnwrittenKeyAbsent(events[..n], key);
      StepOtherKey(Collect(events[..n]), events[n], key);
    }
  }

  /** With no meta tag keyed `_title`, the title slot holds the title chunks in document order. */
  lemma {:induction false} TitleChunksConcatenate(events: seq<ParseEvent>)
    requires forall j :: 0 <= j < |events| ==> Writes(events[j], TitleKey).None?
    ensures Get(Collect(events), TitleKey) == TitleTexts(events)
    decreases |events|
  {
    if |events| > 0 {
      var n := |events| - 1;
      assert forall j :: 0 <= j < n ==> events[..n][j] == events[j];
      TitleChunksConcatenate(events[..n]);
      assert Writes(events[n], TitleKey).None?;
    }
  }

  /**
   * A meta tag whose content is missing or empty, or whose key is
   * `__proto__`, changes nothing, wherever it stands.
   */
  lemma {:induction false} UnstoredMetaIgnored(
    before: seq<ParseEvent>, after: seq<ParseEvent>,
    name: Option<string>, property: Option<string>, content: Option<string>)
    requires !Present(content) || MetaKey(name, property) == ProtoKey
    ensures Collect(before + [MetaTag(name, property, content)] + after) == Collect(before + after)
    decreases |after|
  {
    var tag := MetaTag(name, property, content);
    if |after| == 0 {
      assert before + [tag] + after == before + [tag];
      assert (before + [tag])[..|before|] == before;
      assert before + after == before;
    } else {
      var n := |after| - 1;
      var whole := before + [tag] + after;
      var without := before + after;
      assert whole[..|whole| - 1] == before + [tag] + after[..n];
      assert without[..|without| - 1] == before + after[..n];
      UnstoredMetaIgnored(before, after[..n], name, property, content);
    }
  }

  /**
   * `property` takes precedence over `name`: a tag carrying both is stored
   * under its lower-cased property, and the name's key keeps its old value.
   */
  lemma MetaKeyedByPropertyFirst(events: seq<ParseEvent>, name: string, property: string, content: string)
    requires property != "" && content != "" && Lower(name) != Lower(property)
    ensures var c := Collect(events + [MetaTag(Some(name), Some(property), Some(content))]);
      && (Lower(property) != ProtoKey ==> Get(c, Lower(property)) == content)
      && Get(c, Lower(name)) == Get(Collect(events), Lower(name))
  {
    var all := events + [MetaTag(Some(name), Some(property), Some(content))];
    assert all[..|all| - 1] == events;
  }

  /**
   * The canonical link and meta tags share one map: a later
   * `<meta name="canonical">` replaces the link's href.
   */
  lemma CanonicalMetaOverridesLink(href: string, content: string)
    requires content != ""
    ensures Get(Collect([CanonicalLink(Some(href)), MetaTag(Some("canonical"), None, Some(content))]), CanonicalKey)
            == content
  {
    var events := [CanonicalLink(Some(href)), MetaTag(Some("canonical"), None, Some(content))];
    assert Lower("canonical") == CanonicalKey;
    assert Writes(events[1], CanonicalKey) == Some(content);
    LastWriteWins(events, CanonicalKey, 1, content);
  }

  // ---------------------------------------------------------------- <title> fallback

  const TitleOpen := "<title>"
  const TitleClose := "</title>"

  /** `pat` (lower case) occurs at `i` in `s`, ignoring ASCII case. */
  predicate MatchesAtCI(s: string, pat: string, i: int) {
    0 <= i && i + |pat| <= |s| && Lower(s[i..i + |pat|]) == pat
  }

  /** The first case-insensitive occurrence of `pat` at or after `from`. */
  function FindCI(s: string, pat: string, from: nat): (r: Option<nat>)
    ensures r.Some? ==> from <= r.value && MatchesAtCI(s, pat, r.value)
    ensures r.Some? ==> forall j :: from <= j < r.value ==> !MatchesAtCI(s, pat, j)
    ensures r.None? ==> forall j :: from <= j ==> !MatchesAtCI(s, pat, j)
    decreases |s| + 1 - from
  {
    if from + |pat| > |s| then None
    else if MatchesAtCI(s, pat, from) then Some(from)
    else FindCI(s, pat, from + 1)
  }

  /** A `<title>` at `i` and a `</title>` at `j` after it, ignoring case. */
  ghost predicate TitleElement(html: string, i: int, j: int) {
    MatchesAtCI(html, TitleOpen, i) && i + |TitleOpen| <= j && MatchesAtCI(html, TitleClose, j)
  }

  /** The match `/<title>([\s\S]*?)<\/title>/i` picks: leftmost start, then the nearest end. */
  ghost predicate FirstTitleElement(html: string, i: int, j: int) {
    && TitleElement(html, i, j)
    && (forall i', j' :: TitleElement(html, i', j') ==> i <= i')
    && (forall j' :: TitleElement(html, i, j') ==> j <= j')
  }

  /** The body of the first `<title>…</title>` element of the raw HTML, if any. */
  function TitleScan(html: string): (body: Option<string>)
    ensures body.None? <==> forall i, j :: !TitleElement(html, i, j)
    ensures body.Some? ==> exists i, j :: FirstTitleElement(html, i, j) && body.value == html[i + |TitleOpen|..j]
  {
    match FindCI(html, TitleOpen, 0)
    case None => None
    case Some(i) =>
      match FindCI(html, TitleClose, i + |TitleOpen|)
      case None => None
      case Some(j) =>
        assert FirstTitleElement(html, i, j);
        Some(html[i + |TitleOpen|..j])
  }

  /** The regex fallback: the trimmed body of the first title element, or "". */
  function ScannedTitle(html: string): string {
    match TitleScan(html)
    case Some(b) => Trim(b)
    case None => ""
  }

  // ---------------------------------------------------------------- derivation

  /** The record handed to the preview builder; every field is a string. */
  datatype PageMetadata = PageMetadata(
    title: string,
    description: string,
    image: string,
    ogType: string,
    ogUrl: string,
    twitterCard: string,
    canonical: string)

  /** The seven fields through their `||` chains; the title falls back to the trimmed `<title>` body. */
  function Derive(c: Collected, target: string, html: string): (m: PageMetadata)
    ensures m.ogType != "" && m.twitterCard != ""
    ensures target != "" ==> m.ogUrl != "" && m.canonical != ""
    ensures m.image != "" <==> Get(c, "og:image") != "" || Get(c, "twitter:image") != ""
  {
    var chained := OrElse(Get(c, "og:title"), OrElse(Get(c, "twitter:title"), Get(c, TitleKey)));
    PageMetadata(
      title := if chained != "" then chained else ScannedTitle(html),
      description := OrElse(Get(c, "og:description"), OrElse(Get(c, "twitter:description"), Get(c, "description"))),
      image := OrElse(Get(c, "og:image"), Get(c, "twitter:image")),
      ogType := OrElse(Get(c, "og:type"), "website"),
      ogUrl := OrElse(Get(c, "og:url"), target),
      twitterCard := OrElse(Get(c, "twitter:card"),
                            if Get(c, "og:image") != "" then "summary_large_image" else "summary"),
      canonical := OrElse(Get(c, CanonicalKey), OrElse(Get(c, "og:url"), target)))
  }

  /** `fetchAndExtract` after the fetch: fold the events, then derive. */
  function Extract(target: string, html: string, events: seq<ParseEvent>): PageMetadata {
    Derive(Collect(events), target, html)
  }

  /** Reference for a fallback chain: the first non-empty candidate, or "". */
  function FirstNonEmpty(candidates: seq<string>): (r: string)
    ensures r == "" <==> forall k :: 0 <= k < |candidates| ==> candidates[k] == ""
    ensures r != "" ==> exists k :: 0 <= k < |candidates| && candidates[k] == r
                                   && forall j :: 0 <= j < k ==> candidates[j] == ""
  {
    if |candidates| == 0 then ""
    else if candidates[0] != "" then candidates[0]
    else
      var r := FirstNonEmpty(candidates[1..]);
      assert forall k :: 0 <= k < |candidates| - 1 ==> candidates[1..][k] == candidates[k + 1];
      r
  }

  lemma FirstNonEmptyOfTwo(a: string, b: string)
    ensures FirstNonEmpty([a, b]) == OrElse(a, b)
  {
    assert [a, b][1..] == [b];
    assert [b][1..] == [];
  }

  lemma FirstNonEmptyOfThree(a: string, b: string, c: string)
    ensures FirstNonEmpty([a, b, c]) == OrElse(a, OrElse(b, c))
  {
    assert [a, b, c][1..] == [b, c];
    FirstNonEmptyOfTwo(b, c);
  }

  lemma FirstNonEmptyOfFour(a: string, b: string, c: string, d: string)
    ensures FirstNonEmpty([a, b, c, d]) == OrElse(OrElse(a, OrElse(b, c)), d)
  {
    assert [a, b, c, d][1..] == [b, c, d];
    assert [b, c, d][1..] == [c, d];
    FirstNonEmptyOfTwo(c, d);
  }

  /** Every field is the first non-empty entry of its precedence list. */
  lemma DerivedFieldsFollowPrecedence(c: Collected, target: string, html: string)
    ensures var m := Derive(c, target, html);
      && m.description == FirstNonEmpty([Get(c, "og:description"), Get(c, "twitter:description"), Get(c, "description")])
      && m.image == FirstNonEmpty([Get(c, "og:image"), Get(c, "twitter:image")])
      && m.ogType == FirstNonEmpty([Get(c, "og:type"), "website"])
      && m.ogUrl == FirstNonEmpty([Get(c, "og:url"), target])
      && m.canonical == FirstNonEmpty([Get(c, CanonicalKey), Get(c, "og:url"), target])
      && m.canonical == FirstNonEmpty([Get(c, CanonicalKey), m.ogUrl])
      && m.twitterCard == FirstNonEmpty([Get(c, "twitter:card"),
                                         if Get(c, "og:image") != "" then "summary_large_image" else "summary"])
      && m.title == FirstNonEmpty([Get(c, "og:title"), Get(c, "twitter:title"), Get(c, TitleKey), ScannedTitle(html)])
  {
    var m := Derive(c, target, html);
    FirstNonEmptyOfThree(Get(c, "og:description"), Get(c, "twitter:description"), Get(c, "description"));
    FirstNonEmptyOfTwo(Get(c, "og:image"), Get(c, "twitter:image"));
    FirstNonEmptyOfTwo(Get(c, "og:type"), "website");
    FirstNonEmptyOfTwo(Get(c, "og:url"), target);
    FirstNonEmptyOfThree(Get(c, CanonicalKey), Get(c, "og:url"), target);
    FirstNonEmptyOfTwo(Get(c, CanonicalKey), m.ogUrl);
    FirstNonEmptyOfTwo(Get(c, "twitter:card"), if Get(c, "og:image") != "" then "summary_large_image" else "summary");
    FirstNonEmptyOfFour(Get(c, "og:title"), Get(c, "twitter:title"), Get(c, TitleKey), ScannedTitle(html));
  }

  /** The scan's choice of title element is unique. */
  lemma FirstTitleElementUnique(html: string, i: int, j: int, i': int, j': int)
    requires FirstTitleElement(html, i, j) && FirstTitleElement(html, i', j')
    ensures i == i' && j == j'
  {
    assert TitleElement(html, i', j') && TitleElement(html, i, j);
    assert i <= i' && i' <= i;
    assert TitleElement(html, i, j');
  }

  /** The scan's body is the body of every first title element (there is one). */
  lemma ScanIsFirstBody(html: string, body: string)
    requires TitleScan(html) == Some(body)
    ensures forall i, j :: FirstTitleElement(html, i, j) ==> body == html[i + |TitleOpen|..j]
  {
    var i, j :| FirstTitleElement(html, i, j) && body == html[i + |TitleOpen|..j];
    forall i', j' | FirstTitleElement(html, i', j') ensures body == html[i' + |TitleOpen|..j'] {
      FirstTitleElementUnique(html, i, j, i', j');
    }
  }

  /**
   * The `<title>` scan is consulted only when the chain is empty, and then
   * yields the trimmed body of the first title element, or "" without one.
   */
  lemma TitleFallback(c: Collected, target: string, html: string)
    requires Get(c, "og:title") == "" && Get(c, "twitter:title") == "" && Get(c, TitleKey) == ""
    ensures var t := Derive(c, target, html).title;
      && ((forall i, j :: !TitleElement(html, i, j)) ==> t == "")
      && (forall i, j :: FirstTitleElement(html, i, j) ==> IsTrimOf(t, html[i + |TitleOpen|..j]))
  {
    var t := Derive(c, target, html).title;
    match TitleScan(html)
    case Some(b) =>
      assert t == Trim(b);
      ScanIsFirstBody(html, b);
    case None =>
      assert t == "";
  }

  /** A non-empty chain ignores the raw HTML entirely. */
  lemma TitleChainIgnoresHtml(c: Collected, target: string, html1: string, html2: string)
    requires Get(c, "og:title") != "" || Get(c, "twitter:title") != "" || Get(c, TitleKey) != ""
    ensures Derive(c, target, html1).title == Derive(c, target, html2).title
  {
  }

  /**
   * Without a `twitter:card`, the card is "summary_large_image" exactly when
   * an `og:image` was found; a `twitter:image` alone leaves it "summary".
   */
  lemma TwitterCardRule(c: Collected, target: string, html: string)
    ensures var m := Derive(c, target, html);
      && (Get(c, "twitter:card") != "" ==> m.twitterCard == Get(c, "twitter:card"))
      && (Get(c, "twitter:card") == "" ==>
            && (m.twitterCard == "summary_large_image" <==> Get(c, "og:image") != "")
            && (m.twitterCard == "summary" <==> Get(c, "og:image") == ""))
      && (Get(c, "twitter:card") == "" && Get(c, "og:image") == "" && Get(c, "twitter:image") != "" ==>
            m.twitterCard == "summary" && m.image == Get(c, "twitter:image"))
  {
  }

  /** A page with no markup at all still yields a fully populated record of defaults. */
  lemma ExtractWithoutMarkup(target: string, html: string)
    requires forall i, j :: !TitleElement(html, i, j)
    ensures Extract(target, html, []) ==
      PageMetadata("", "", "", "website", target, "summary", target)
  {
  }
}
