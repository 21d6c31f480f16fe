/**
 * End-to-end behaviour of the handler on four concrete requests: a bot
 * unfurling a post short link, a browser following an explicit target,
 * a request with nothing to resolve, and a preview whose fetch fails.
 */
module Scenarios {
  import opened Wrappers
  import opened Text
  import opened Resolver
  import opened Classifier
  import opened Extractor
  import opened Preview
  import opened Dispatch

  const PostPath := "/p/ABC123"
  const PostTarget := PostUrl("ABC123")
  const ImageUrl := "http://x/i.jpg"
  const ExampleTarget := "https://example.com"

  /** What the rewriter reports for `<title>T</title>` and one `og:image` meta tag. */
  const PostEvents := [TitleText("T"), MetaTag(None, Some("og:image"), Some(ImageUrl))]

  lemma PostPathResolves()
    ensures ResolveTarget(PostPath, None) == Some(PostTarget)
    ensures RoutePath(PostPath) != LogsPath
  {
    assert IsId("ABC123");
    assert PostPath == PostPrefix + "ABC123";
    ResolvePostLink(PostPath, None, "ABC123");
    ShortLinksAreNotLogs(PostPath, "ABC123");
  }

  lemma PostMetadata(html: string)
    ensures Extract(PostTarget, html, PostEvents).image == ImageUrl
    ensures Extract(PostTarget, html, PostEvents).twitterCard == "summary_large_image"
  {
    assert MetaKey(None, Some("og:image")) == "og:image" by {
      assert Lower("og:image") == "og:image";
    }
    assert "og:image" != TitleKey by { assert "og:image"[0] != TitleKey[0]; }
    assert Writes(PostEvents[1], "og:image") == Some(ImageUrl);
    LastWriteWins(PostEvents, "og:image", 1, ImageUrl);
    assert "twitter:card" != TitleKey && "twitter:card" != "og:image" by {
      assert "twitter:card"[0] != TitleKey[0] && "twitter:card"[0] != "og:image"[0];
    }
    assert Writes(PostEvents[1], "twitter:card").None?;
    UnwrittenKeyAbsent(PostEvents, "twitter:card");
  }

  lemma ImageUrlUnescaped()
    ensures Esc(ImageUrl) == ImageUrl
  {
    EscIdle(ImageUrl);
  }

  /** The post URL, spelled out. */
  lemma PostTargetSpelledOut()
    ensures PostTarget == "https://www.instagram.com/p/ABC123/"
  {
  }

  lemma PostTargetUnescaped()
    ensures Esc(PostTarget) == PostTarget
  {
    assert IsId("ABC123");
    SynthesizedUrlsNeedNoEscaping("ABC123");
  }

  lemma CardUnescaped()
    ensures Esc("summary_large_image") == "summary_large_image"
  {
    EscIdle("summary_large_image");
  }

  /** The bot request for the post is answered with the preview of the fetched page. */
  lemma BotGetsPreview(html: string)
    ensures Handle(Request(PostPath, None, None, Some("facebookexternalhit/1.1")), Fetched(html, PostEvents))
      == PreviewPage(BuildPreviewHtml(Extract(PostTarget, html, PostEvents), PostTarget))
  {
    PostPathResolves();
    FacebookCrawlerIsBot();
    PreviewServed(Request(PostPath, None, None, Some("facebookexternalhit/1.1")), html, PostEvents);
  }

  /** The post's preview carries its image, the large-image card and the refresh to the post. */
  lemma PostPreviewContents(html: string)
    ensures var doc := BuildPreviewHtml(Extract(PostTarget, html, PostEvents), PostTarget);
      && IsSubstring(OgImageOpen + ImageUrl + AttrEnd, doc)
      && IsSubstring(MetaOpen("name", "twitter:card") + "summary_large_image" + LineEnd, doc)
      && IsSubstring(RefreshOpen + PostTarget + LineEnd, doc)
  {
    var meta := Extract(PostTarget, html, PostEvents);
    PostMetadata(html);
    ImageEmitsImageTags(meta, PostTarget);
    TwitterFieldsEmitted(meta, PostTarget);
    RefreshRedirectsToTarget(meta, PostTarget);
    ImageUrlUnescaped();
    PostTargetUnescaped();
    CardUnescaped();
  }

  /**
   * The Facebook crawler unfurls `/p/ABC123`. It gets the preview, with
   * the page's image, the large-image card and a refresh to the post.
   */
  lemma BotUnfurlsPost(html: string)
    ensures var r := Handle(Request(PostPath, None, None, Some("facebookexternalhit/1.1")), Fetched(html, PostEvents));
      && r.PreviewPage?
      && IsSubstring(OgImageOpen + ImageUrl + AttrEnd, r.body)
      && IsSubstring(MetaOpen("name", "twitter:card") + "summary_large_image" + LineEnd, r.body)
      && IsSubstring(RefreshOpen + PostTarget + LineEnd, r.body)
    ensures PostTarget == "https://www.instagram.com/p/ABC123/"
  {
    BotGetsPreview(html);
    PostPreviewContents(html);
    PostTargetSpelledOut();
  }

  /** A browser with an explicit target is redirected there, whatever a fetch would return. */
  lemma BrowserFollowsTarget(fetched: FetchOutcome)
    ensures Handle(Request("/", Some(ExampleTarget), None, Some("Mozilla/5.0")), fetched)
      == Redirect(ExampleTarget)
  {
    var req := Request("/", Some(ExampleTarget), None, Some("Mozilla/5.0"));
    BareMozillaIsHuman();
    assert !WantsPreview(req);
    RootIsNotLogs();
    assert ResolveTarget("/", Some(ExampleTarget)) == Some(ExampleTarget);
    HumanRedirectsWithoutFetch(req, fetched, fetched);
  }

  lemma RootIsNotLogs()
    ensures RoutePath("/") != LogsPath
  {
    assert TrimSlashes("/") == "";
  }

  /** No target and a path that is no short link is answered 400. */
  lemma UnknownPathIsMissingTarget(userAgent: Option<string>, fetched: FetchOutcome)
    ensures Handle(Request("/foo", None, None, userAgent), fetched) == MissingTarget
  {
    FooIsNotLogs();
    FooIsNoShortLink();
    MissingTargetIs400(Request("/foo", None, None, userAgent), fetched);
  }

  lemma FooIsNotLogs()
    ensures RoutePath("/foo") != LogsPath
  {
    LogsPathIff("/foo");
  }

  lemma FooIsNoShortLink()
    ensures ResolveTarget("/foo", None).None?
  {
    var p := "/foo";
    assert !(PostPrefix <= p) by { assert p[1] != PostPrefix[1]; }
    assert !(ReelPrefix <= p) by { assert p[1] != ReelPrefix[1]; }
    assert !(ReelsPrefix <= p) by { assert p[1] != ReelsPrefix[1]; }
  }

  /** A forced preview whose fetch fails falls back to the redirect. */
  lemma FailedPreviewRedirects(userAgent: Option<string>)
    ensures Handle(Request(PostPath, None, Some("1"), userAgent), FetchFailed) == Redirect(PostTarget)
  {
    PostPathResolves();
  }
}
