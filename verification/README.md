# Instagram short-link worker, modelled in Dafny

`worker.js` is an edge worker that turns short links (`/p/<id>`, `/reel/<id>`,
`/reels/<id>`, or any URL given as `?target=`) into redirects to Instagram or to
the given target.
Link-unfurling bots (WhatsApp, Facebook, Slack, …) and requests with
`?preview=1` get something else. For them the worker fetches the target page,
collects its Open Graph, Twitter Card and `<title>` metadata through an
HTMLRewriter, and serves a small HTML preview document. That document mirrors
the metadata and sends a browser on to the target through a `refresh`
directive.

The Dafny project models the pure core of that worker:

- `wrappers.dfy` defines `Option`, used for JavaScript `null` (a missing query parameter, header or attribute).
- `text.dfy` covers the JavaScript string operations the worker relies on:
  - `||` on strings;
  - `includes`;
  - ASCII `toLowerCase`;
  - `trim`.
- `resolver.dfy` models `resolveTarget`: an explicit target first, then the post pattern, then the reel pattern, otherwise null.
- `classifier.dfy` models `looksLikeUnfurlBot`, signature containment in the lower-cased User-Agent.
- `extractor.dfy` models metadata collection, taken from `fetchAndExtract`:
  - the HTMLRewriter callbacks become a sequence of parse events folded into one shared string map;
  - the `||` chains derive the seven preview fields from that map;
  - the case-insensitive `<title>` regex is the title fallback.
- `preview.dfy` models `buildPreviewHtml`:
  - `esc` is modelled as written: four chained global replacements;
  - the template is a list of markup pieces and escaped value pieces.
- `dispatch.dfy` models the request handler's decisions:
  - the `/_logs` route on the slash-trimmed path;
  - 400 for a missing target;
  - preview for bots and `preview=1`;
  - 302 redirect otherwise, or when the preview fetch fails.
- `scenarios.dfy` checks four end-to-end requests.

The main results:

- `esc` equals the character-wise HTML escaper and decodes back to its input (`Preview.EscRoundTrip`).
- Every `<`, `>` and `"` in the preview document is one the template writes. Escaped values add none (`Preview.TemplateOwnsMarkup`), so two previews that agree on whether there is an image hold the same number of each, whatever their values (`Preview.MarkupIndependentOfValues`). No value can add a tag such as `<body onload=…>` or a second refresh directive. In particular, no tag head the template never writes (`<` followed by a character outside `!hmltb/a`, such as `<script`) occurs (`Preview.NoForeignTag`).
- The `og:image` and `twitter:image` tags occur in the document exactly when there is an image (`Preview.ImageTagsIffImage`). This is proved through a "no other tag can start like an image tag" invariant over the template.
- Every answer for a resolved target leads to that target (`Dispatch.EveryAnswerLeadsToTarget`).
- Later meta tags overwrite earlier ones, contentless tags are ignored, and title chunks concatenate (`Extractor`).
- The target resolution rules are complete and characterised both ways (`Resolver.ResolveNullIff`).

The handler's network fetch is a parameter (`Dispatch.FetchOutcome`). It is either a failure or the fetched HTML together with the parse events the rewriter reports for it.

The short-link patterns read the raw `url.pathname`, not the slash-trimmed path computed at worker.js:5, which only the `/_logs` route uses. So `/p/abc/` resolves, but `/p/abc//` is answered 400 (`Resolver.DoubleTrailingSlashUnresolved`).

## Model

| member | source | states |
|---|---|---|
| Text.Contains | worker.js:88 | `hay.includes(needle)` holds exactly when `needle` occurs at some index of `hay` |
| Text.LowerNormalises | worker.js:45 | the lower-cased User-Agent holds no upper-case ASCII letter, lower-casing twice changes nothing, and a string is left unchanged exactly when it has no upper-case ASCII letter |
| Text.Trim | worker.js:135 | `trim()` yields the slice that is left once the maximal runs of JavaScript white space and line terminators are removed from both ends |
| Resolver.MatchShortLink | worker.js:70 | a captured identifier means the path is the prefix, then a non-empty `[A-Za-z0-9_-]` identifier, then at most one slash |
| Resolver.MatchShortLinkComplete | worker.js:70 | every path of that shape is matched, and the match captures exactly its identifier |
| Resolver.ResolveTarget | worker.js:64-67 | a non-empty `target` query value is returned unchanged before any pattern is tried; a resolved target is never empty |
| Resolver.ResolvePostLink | worker.js:69-71 | with no usable `target`, `/p/<id>` or `/p/<id>/` resolves to `https://www.instagram.com/p/<id>/` |
| Resolver.ResolveReelLink | worker.js:73-75 | with no usable `target`, `/reel/<id>` and `/reels/<id>` (with or without one trailing slash) both resolve to `https://www.instagram.com/reel/<id>/` |
| Resolver.ResolveNullIff | worker.js:64-79 | the result is null exactly when `target` is missing or empty and the path matches neither pattern |
| Resolver.DoubleTrailingSlashUnresolved | worker.js:70 | `/p/abc//` without a target resolves to null: only one trailing slash is tolerated |
| Resolver.ResolvedUrlReresolves | worker.js:71-75 | a synthesized Instagram URL starts with the origin, and its path resolves again to the same URL |
| Classifier.AnySignature | worker.js:88 | `sigs.some(s => ua.includes(s))` is true exactly when some listed signature occurs in `ua` |
| Classifier.LooksLikeUnfurlBot | worker.js:81-89 | a User-Agent is a bot exactly when one of the 19 listed signatures occurs in it |
| Classifier.EmptyAgentIsHuman | worker.js:45 | a missing or empty User-Agent is never a bot |
| Classifier.BotMonotone | worker.js:88 | any string containing a bot User-Agent is a bot User-Agent |
| Classifier.BotExtended | worker.js:88 | text added on either side of a bot User-Agent keeps it a bot |
| Classifier.PreviewBotIgnoresCase | worker.js:45 | a header holding a signature in any ASCII letter case is classified as a bot |
| Classifier.FacebookCrawlerIsBot | worker.js:83 | `facebookexternalhit/1.1` is a bot |
| Classifier.AgentWithoutSignatureLettersIsHuman | worker.js:82-88 | a User-Agent whose lower-cased form lacks all of `wfkdgvpeqby_` matches no signature |
| Classifier.DesktopBrowserIsHuman | worker.js:45 | `Mozilla/5.0 (Macintosh)` is not a bot |
| Classifier.BareMozillaIsHuman | worker.js:45 | `Mozilla/5.0` is not a bot |
| Extractor.StepOtherKey | worker.js:108-118 | one callback sets a key it writes to the written value, and leaves every other key (except the title slot) as it was |
| Extractor.LastWriteWins | worker.js:115 | after the fold, a key holds the value of the last event that wrote it |
| Extractor.UnwrittenKeyAbsent | worker.js:103-118 | a key that no event writes is absent from the collected map |
| Extractor.TitleChunksConcatenate | worker.js:106 | with no meta tag keyed `_title`, the title slot holds all title text chunks concatenated in document order |
| Extractor.UnstoredMetaIgnored | worker.js:113-115 | inserting a meta tag with missing or empty content, or one keyed `__proto__` (whose assignment the object's prototype setter swallows), anywhere in the event stream leaves the collected map unchanged |
| Extractor.MetaKeyedByPropertyFirst | worker.js:114-115 | a tag with both attributes is stored under its lower-cased `property` (unless that key is `__proto__`, which stores nothing), and the key of its `name` is untouched |
| Extractor.CanonicalMetaOverridesLink | worker.js:115-118 | a `<meta name="canonical">` after a canonical link replaces the link's href in the shared map |
| Extractor.FindCI | worker.js:134 | returns the first index at or after `from` where the pattern occurs ignoring ASCII case, and None when there is no such index |
| Extractor.TitleScan | worker.js:134 | None exactly when the HTML has no `<title>…</title>` element; otherwise the body of the leftmost, shortest such element |
| Extractor.FirstTitleElementUnique | worker.js:134 | the element the regex selects (leftmost start, nearest end) is unique |
| Extractor.Derive | worker.js:122-130 | `ogType` and `twitterCard` are never empty; with a non-empty target, `ogUrl` and `canonical` are not empty either; `image` is non-empty exactly when `og:image` or `twitter:image` was collected |
| Extractor.FirstNonEmpty | worker.js:123-129 | reference definition of a `||` chain: "" exactly when all candidates are empty, otherwise the first non-empty candidate |
| Extractor.DerivedFieldsFollowPrecedence | worker.js:122-136 | each of the seven derived fields equals the first non-empty entry of its precedence list; for example canonical is link href, then `og:url`, then the target, the card is `twitter:card`, then the image-dependent default, and the title is `og:title`, `twitter:title`, the title text, then the trimmed `<title>` regex match |
| Extractor.TitleFallback | worker.js:132-136 | when the title chain is empty, the title is the trimmed body of the first `<title>` element, or "" when there is none |
| Extractor.TitleChainIgnoresHtml | worker.js:133 | a non-empty title chain makes the raw HTML irrelevant to the title |
| Extractor.TwitterCardRule | worker.js:128 | a collected `twitter:card` wins; without one the card is `summary_large_image` exactly when `og:image` was collected, and a `twitter:image` alone gives `summary` |
| Extractor.ExtractWithoutMarkup | worker.js:122-136 | with no events and no title element, the record is `("", "", "", "website", target, "summary", target)` |
| Preview.ReplaceAll | worker.js:142 | a global replacement removes every occurrence of the replaced character (when the replacement lacks it) and adds only characters of the input or of the replacement |
| Preview.Esc | worker.js:142 | the escaped string contains no raw `<`, `>` or `"` |
| Preview.EscOneChar | worker.js:142 | on one character, the replacement chain gives that character's reference, or the character itself |
| Preview.EscIsCharwise | worker.js:142 | the four chained replacements equal the independent character-wise escaper: `&`, `<`, `>` and `"` become `&amp;`, `&lt;`, `&gt;` and `&quot;`, and every other character stays |
| Preview.DecodeEscapeCharwise | worker.js:142 | decoding the four references inverts the character-wise escaper |
| Preview.EscRoundTrip | worker.js:142 | decoding `esc(s)` gives back `s` |
| Preview.EscIdle | worker.js:142 | a string without the four special characters passes through `esc` unchanged |
| Preview.NoImageNoImageTags | worker.js:152-156 | with an empty image, neither `<meta property="og:image"` nor `<meta name="twitter:image"` occurs anywhere in the document |
| Preview.ImageEmitsImageTags | worker.js:152-156 | with an image, both image tags occur, each carrying the escaped image URL |
| Preview.ImageTagsIffImage | worker.js:152-156 | each image tag occurs in the document exactly when the image is non-empty |
| Preview.NoForeignTag | worker.js:141-159 | whatever the metadata and target hold, no tag head the template does not write itself (`<` followed by a character other than `!hmltb/a`, such as `<script` or `<iframe`) occurs anywhere in the document |
| Preview.NoScriptTag | worker.js:141-159 | a title or other value such as `<script>alert(1)</script>` cannot put `<script` or `<SCRIPT` into the document |
| Preview.ValuesAddNoMarkup | worker.js:142 | for any sequence of markup and escaped values, each of `<`, `>` and `"` occurs as often in the rendering as in the rendering with every value emptied |
| Preview.TemplateOwnsMarkup | worker.js:141-159 | the document holds exactly as many `<`, `>` and `"` as the template with every interpolated value emptied: escaped values contribute none |
| Preview.MarkupIndependentOfValues | worker.js:141-159 | two previews that both have, or both lack, an image hold the same number of `<`, `>` and `"`, whatever their other metadata and target |
| Preview.CanonicalEmitted | worker.js:145 | the canonical link carries the escaped canonical URL |
| Preview.TitleEmitted | worker.js:146-148 | `<title>` and `og:title` carry the escaped title |
| Preview.DescriptionEmitted | worker.js:147-149 | `description` and `og:description` carry the escaped description |
| Preview.TypeAndUrlEmitted | worker.js:150-151 | `og:type` and `og:url` carry the escaped type and URL |
| Preview.TwitterFieldsEmitted | worker.js:153-155 | the three Twitter Card tags carry the escaped card type, title and description |
| Preview.RefreshRedirectsToTarget | worker.js:157-158 | the refresh directive and the fallback link both carry the escaped target; it cannot close the attribute early and it decodes back to the target |
| Dispatch.TrimSlashes | worker.js:5 | the result is a prefix of the path, does not end in `/`, and only slashes were removed |
| Dispatch.RoutePath | worker.js:5 | the routing path is never empty |
| Dispatch.LogsPathIff | worker.js:5-8 | the logs route is taken exactly for `/_logs` followed by any number of slashes |
| Dispatch.ShortLinksAreNotLogs | worker.js:8 | no short-link path is taken for the logs route |
| Dispatch.SynthesizedUrlsNeedNoEscaping | worker.js:71-75 | a post or reel URL built from an identifier passes through `esc` unchanged |
| Dispatch.Handle | worker.js:22-59 | a redirect always goes to the resolved target; a preview is served only to a bot or `preview=1` request whose fetch succeeded; a 400 only when no target resolves |
| Dispatch.MissingTargetIs400 | worker.js:23-24 | outside `/_logs`, the answer is 400 exactly when no target resolves |
| Dispatch.HumanRedirectsWithoutFetch | worker.js:58-59 | for a request that is neither a bot nor `preview=1`, the answer does not depend on the fetch and is the redirect to the target |
| Dispatch.FailedFetchDegrades | worker.js:52-55 | a failed fetch never yields a preview; the answer is the same as for a human visitor |
| Dispatch.PreviewServed | worker.js:46-51 | a bot or forced request whose fetch succeeds gets the preview built from the extracted metadata and the target |
| Dispatch.EveryAnswerLeadsToTarget | worker.js:44-59 | every answer for a resolved target is either the redirect to it, or a preview whose refresh directive carries it (escaped, decoding back to it) |
| Scenarios.PostMetadata | worker.js:125-128 | a page with an `og:image` yields that image and the `summary_large_image` card |
| Scenarios.BotUnfurlsPost | worker.js:44-51 | the Facebook crawler on `/p/ABC123` gets a preview holding the `og:image` tag, the large-image card and a refresh to `https://www.instagram.com/p/ABC123/` |
| Scenarios.BrowserFollowsTarget | worker.js:58-59 | `Mozilla/5.0` with `?target=https://example.com` is redirected there, whatever a fetch would return |
| Scenarios.UnknownPathIsMissingTarget | worker.js:23-24 | `/foo` with no target is answered 400 |
| Scenarios.FailedPreviewRedirects | worker.js:52-54 | `preview=1` on `/p/ABC123` with a failing fetch is redirected to the post |

## Left out

- The `/_logs` endpoint body (worker.js:9-19) is not modelled: the token comparison and the KV listing are storage plumbing. `Dispatch.Handle` only says that the route is taken.
- The log write (worker.js:27-41) is not modelled: it is fire-and-forget KV output depending on the clock, `Math.random` and `ctx.waitUntil`, and does not affect the response.
- The outbound `fetch` is a parameter, not a model (worker.js:92-100). So are the forwarded `user-agent` and `accept-language` headers with their defaults. Any exception from the fetch, the body read or the rewriter is `FetchFailed`. A non-2xx response is still parsed, so it is `Fetched`.
- The HTMLRewriter tokenizer (worker.js:104-120) is a foreign runtime library. Its callbacks are the given event sequence. The model does not relate those events to the HTML text that the `<title>` regex fallback reads.
- URL parsing and query decoding (worker.js:4) are left out. The model takes the already-parsed `pathname` and the decoded `target`, `preview` and `user-agent` values as inputs.
- The `Response` objects, their headers and status codes, and `json()` (worker.js:161-165) are left out. So is the fact that `Response.redirect` throws on a target that is not an absolute URL (for example `?target=foo`). The model answers `Redirect(t)` for any non-empty target.
- Text.Lower: lower-cases ASCII letters only. JavaScript's `toLowerCase` also maps non-ASCII characters, some of them onto ASCII (the Kelvin sign U+212A becomes `k`). So a User-Agent that spells a signature with such a character is a bot in the worker but not in the model. The same lower-casing builds meta keys (worker.js:114): a key spelled with the Kelvin sign differs between worker and model. The keys the derivation reads hold no `k`, so no derived field differs.
- Extractor.Get: the map holds the object's own properties only. Names inherited from `Object.prototype` (`constructor`, `toString`, `__proto__`) read as present and truthy in the worker but as "" in the model. The derivation reads none of them, so no derived field differs. A meta tag keyed `__proto__` is modelled as storing nothing, as the prototype setter does with a string.
- Extractor.Step: a canonical link without `href` stores "" where the worker stores `null`. Every later read of the key goes through `||`, which treats both alike.
- The `<title>` regex is modelled for ASCII case-insensitivity. This is exact for JavaScript's non-Unicode `/i`, which never folds a non-ASCII character onto an ASCII one.
