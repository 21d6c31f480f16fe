/**
 * Request dispatch: the log-reading endpoint, target resolution, the
 * preview decision and the redirect fallback, in the order the handler
 * takes them. The network fetch of the target is a parameter: either it
 * failed (any exception thrown by the fetch, the body read or the HTML
 * rewriter) or it delivered the body and the stream of parse events the
 * rewriter reports for it.
 */
module Dispatch {
  import opened Wrappers
  import opened Text
  import opened Resolver
  import opened Classifier
  import opened Extractor
  import opened Preview

  /** The parts of an incoming request the handler reads. */
  datatype Request = Request(
    pathname: string,              // url.pathname, as parsed
    target: Option<string>,        // searchParams.get("target")
    preview: Option<string>,       // searchParams.get("preview")
    userAgent: Option<string>)     // headers.get("user-agent")

  /** What fetching the target produced. */
  datatype FetchOutcome =
    | FetchFailed
    | Fetched(html: string, events: seq<ParseEvent>)

  datatype Response =
    | LogsEndpoint                 // `/_logs`: token check and KV listing, not modelled
    | MissingTarget                // 400 "Missing ?target=…"
    | Redirect(location: string)   // 302 to the target
    | PreviewPage(body: string)    // 200 text/html preview document

  const LogsPath := "/_logs"

  /** `pathname.replace(/\/+$/, "")`: the path without its run of trailing slashes. */
  function TrimSlashes(p: string): (r: string)
    ensures r <= p
    ensures |r| == 0 || r[|r| - 1] != '/'
    ensures forall i :: |r| <= i < |p| ==> p[i] == '/'
  {
    if |p| > 0 && p[|p| - 1] == '/' then TrimSlashes(p[..|p| - 1]) else p
  }

  /** The routing path: trailing slashes dropped, and "/" if nothing is left. */
  function RoutePath(p: string): (r: string)
    ensures r != ""
  {
    OrElse(TrimSlashes(p), "/")
  }

  /** The preview is forced only by `preview` being exactly "1". */
  predicate ForcePreview(req: Request) {
    req.preview == Some("1")
  }

  /** Bots and forced requests are served the preview (when the fetch succeeds). */
  predicate WantsPreview(req: Request) {
    ForcePreview(req) || IsPreviewBot(req.userAgent)
  }

  /** The `fetch` handler, with the KV log write and the `/_logs` body left out. */
  function Handle(req: Request, fetched: FetchOutcome): (r: Response)
    ensures r.Redirect? ==> ResolveTarget(req.pathname, req.target) == Some(r.location)
    ensures r.PreviewPage? ==> WantsPreview(req) && fetched.Fetched?
    ensures r.MissingTarget? ==> ResolveTarget(req.pathname, req.target).None?
  {
    if RoutePath(req.pathname) == LogsPath then LogsEndpoint
    else match ResolveTarget(req.pathname, req.target)
      case None => MissingTarget
      case Some(target) =>
        if WantsPreview(req) then
          match fetched
          case Fetched(html, events) => PreviewPage(BuildPreviewHtml(Extract(target, html, events), target))
          case FetchFailed => Redirect(target)
        else Redirect(target)
  }

  // ---------------------------------------------------------------- routing

  /** `/_logs` is reached exactly by "/_logs" followed by any number of slashes. */
  lemma LogsPathIff(p: string)
    ensures RoutePath(p) == LogsPath <==>
      LogsPath <= p && forall i :: |LogsPath| <= i < |p| ==> p[i] == '/'
  {
    var r := TrimSlashes(p);
    if LogsPath <= p && forall i :: |LogsPath| <= i < |p| ==> p[i] == '/' {
      assert p[5] == 's';
      assert |r| >= 6;
      assert |r| <= 6;
      assert r == p[..6] == LogsPath;
    }
  }

  /** A short link is never taken for the logs path. */
  lemma ShortLinksAreNotLogs(p: string, id: string)
    requires IsShortLink(p, PostPrefix, id) || IsShortLink(p, ReelPrefix, id) || IsShortLink(p, ReelsPrefix, id)
    ensures RoutePath(p) != LogsPath
  {
    LogsPathIff(p);
    assert p[1] != LogsPath[1];
  }

  /** The origin holds none of the characters `Esc` rewrites. */
  lemma OriginIsPlain()
    ensures '&' !in InstagramOrigin && '<' !in InstagramOrigin
    ensures '>' !in InstagramOrigin && '"' !in InstagramOrigin
  {
  }

  /** A URL synthesized from a short link passes through `Esc` unchanged. */
  lemma SynthesizedUrlsNeedNoEscaping(id: string)
    requires IsId(id)
    ensures Esc(PostUrl(id)) == PostUrl(id)
    ensures Esc(ReelUrl(id)) == ReelUrl(id)
  {
    OriginIsPlain();
    assert forall c :: c in id ==> IsIdChar(c);
    EscIdle(PostUrl(id));
    EscIdle(ReelUrl(id));
  }

  // ---------------------------------------------------------------- dispatch

  /** Without a resolvable target, every non-log request is answered 400. */
  lemma MissingTargetIs400(req: Request, fetched: FetchOutcome)
    requires RoutePath(req.pathname) != LogsPath
    ensures Handle(req, fetched) == MissingTarget <==> ResolveTarget(req.pathname, req.target).None?
  {
  }

  /** Humans are redirected to the target, whatever the fetch would have returned. */
  lemma HumanRedirectsWithoutFetch(req: Request, f1: FetchOutcome, f2: FetchOutcome)
    requires !WantsPreview(req)
    ensures Handle(req, f1) == Handle(req, f2)
    ensures RoutePath(req.pathname) != LogsPath && ResolveTarget(req.pathname, req.target).Some? ==>
      Handle(req, f1) == Redirect(ResolveTarget(req.pathname, req.target).value)
  {
  }

  /** A failed fetch degrades the preview to the plain redirect a human gets. */
  lemma FailedFetchDegrades(req: Request)
    ensures Handle(req, FetchFailed) == Handle(req.(preview := None, userAgent := None), FetchFailed)
    ensures !Handle(req, FetchFailed).PreviewPage?
  {
    EmptyAgentIsHuman();
  }

  /** A successful fetch for a bot or a forced preview serves the preview of the extracted metadata. */
  lemma PreviewServed(req: Request, html: string, events: seq<ParseEvent>)
    requires RoutePath(req.pathname) != LogsPath && ResolveTarget(req.pathname, req.target).Some?
    requires WantsPreview(req)
    ensures var t := ResolveTarget(req.pathname, req.target).value;
      Handle(req, Fetched(html, events)) == PreviewPage(BuildPreviewHtml(Extract(t, html, events), t))
  {
  }

  /**
   * Every response that leaves the logs endpoint sends the client to the
   * resolved target: directly, or through the preview's refresh directive.
   */
  lemma EveryAnswerLeadsToTarget(req: Request, fetched: FetchOutcome)
    requires RoutePath(req.pathname) != LogsPath && ResolveTarget(req.pathname, req.target).Some?
    ensures var t := ResolveTarget(req.pathname, req.target).value;
      match Handle(req, fetched)
      case Redirect(l) => l == t
      case PreviewPage(b) => IsSubstring(RefreshOpen + Esc(t) + LineEnd, b) && DecodeReferences(Esc(t)) == t
      case _ => false
  {
    var t := ResolveTarget(req.pathname, req.target).value;
    if Handle(req, fetched).PreviewPage? {
      RefreshRedirectsToTarget(Extract(t, fetched.html, fetched.events), t);
    }
  }
}
