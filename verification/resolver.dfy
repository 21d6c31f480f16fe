/**
 * Target resolution: an ordered, first-match-wins rule set that turns the
 * request's `target` query value or an Instagram short-link path into the
 * destination URL.
 */
module Resolver {
  import opened Wrappers
  import opened Text

  /** A character of the `[A-Za-z0-9_-]` class used by the short-link patterns. */
  predicate IsIdChar(c: char) {
    ('A' <= c <= 'Z') || ('a' <= c <= 'z') || ('0' <= c <= '9') || c == '_' || c == '-'
  }

  /** A non-empty run of identifier characters (`[A-Za-z0-9_-]+`). */
  predicate IsId(s: string) {
    |s| > 0 && forall i :: 0 <= i < |s| ==> IsIdChar(s[i])
  }

  const PostPrefix := "/p/"
  const ReelPrefix := "/reel/"
  const ReelsPrefix := "/reels/"
  const InstagramOrigin := "https://www.instagram.com"

  /** `path` is `prefix` followed by the identifier `id` and at most one slash. */
  ghost predicate IsShortLink(path: string, prefix: string, id: string) {
    IsId(id) && (path == prefix + id || path == prefix + id + "/")
  }

  /**
   * The anchored pattern `^<prefix>([A-Za-z0-9_-]+)\/?$`: the captured
   * identifier, or None when the path does not match.
   */
  function MatchShortLink(path: string, prefix: string): (id: Option<string>)
    ensures id.Some? ==> IsShortLink(path, prefix, id.value)
  {
    if prefix <= path then
      var rest := path[|prefix|..];
      assert path == prefix + rest;
      if IsId(rest) then Some(rest)
      else if |rest| > 0 && rest[|rest| - 1] == '/' && IsId(rest[..|rest| - 1]) then
        assert rest == rest[..|rest| - 1] + "/";
        Some(rest[..|rest| - 1])
      else None
    else None
  }

  /** Every short-link path is recognised, with exactly its identifier captured. */
  lemma MatchShortLinkComplete(path: string, prefix: string, id: string)
    requires IsShortLink(path, prefix, id)
    ensures MatchShortLink(path, prefix) == Some(id)
  {
    assert path[..|prefix|] == prefix;
    var rest := path[|prefix|..];
    if path == prefix + id + "/" {
      assert rest == id + "/";
      assert !IsIdChar(rest[|rest| - 1]);
      assert rest[..|rest| - 1] == id;
    } else {
      assert rest == id;
    }
  }

  function PostUrl(id: string): string {
    InstagramOrigin + PostPrefix + id + "/"
  }

  function ReelUrl(id: string): string {
    InstagramOrigin + ReelPrefix + id + "/"
  }

  /**
   * `resolveTarget`: a present, non-empty `target` query value verbatim;
   * else `/p/<id>`; else `/reel/<id>` or `/reels/<id>`; else null.
   * `pathname` is the raw URL path (trailing slashes not stripped).
   */
  function ResolveTarget(pathname: string, target: Option<string>): (r: Option<string>)
    ensures Present(target) ==> r == target
    ensures r.Some? ==> r.value != ""
  {
    if Present(target) then target
    else match MatchShortLink(pathname, PostPrefix)
      case Some(id) => Some(PostUrl(id))
      case None =>
        match MatchShortLink(pathname, ReelPrefix)
        case Some(id) => Some(ReelUrl(id))
        case None =>
          match MatchShortLink(pathname, ReelsPrefix)
          case Some(id) => Some(ReelUrl(id))
          case None => None
  }

  /** A post short link without a usable `target` resolves to the post URL. */
  lemma ResolvePostLink(pathname: string, target: Option<string>, id: string)
    requires !Present(target) && IsShortLink(pathname, PostPrefix, id)
    ensures ResolveTarget(pathname, target) == Some(PostUrl(id))
  {
    MatchShortLinkComplete(pathname, PostPrefix, id);
  }

  /** Singular and plural reel short links both resolve to the singular reel URL. */
  lemma ResolveReelLink(pathname: string, target: Option<string>, id: string)
    requires !Present(target)
    requires IsShortLink(pathname, ReelPrefix, id) || IsShortLink(pathname, ReelsPrefix, id)
    ensures ResolveTarget(pathname, target) == Some(ReelUrl(id))
  {
    assert !(PostPrefix <= pathname) by {
      assert pathname[1] == ReelPrefix[1];
    }
    if IsShortLink(pathname, ReelPrefix, id) {
      MatchShortLinkComplete(pathname, ReelPrefix, id);
    } else {
      assert !(ReelPrefix <= pathname) by {
        assert pathname[5] == 's';
      }
      MatchShortLinkComplete(pathname, ReelsPrefix, id);
    }
  }

  /** Null exactly when there is no usable `target` and the path is no short link. */
  lemma ResolveNullIff(pathname: string, target: Option<string>)
    ensures ResolveTarget(pathname, target).None? <==>
      && !Present(target)
      && forall id :: !IsShortLink(pathname, PostPrefix, id)
                   && !IsShortLink(pathname, ReelPrefix, id)
                   && !IsShortLink(pathname, ReelsPrefix, id)
  {
    forall id | IsShortLink(pathname, PostPrefix, id) || IsShortLink(pathname, ReelPrefix, id)
                || IsShortLink(pathname, ReelsPrefix, id)
      ensures ResolveTarget(pathname, target).Some?
    {
      if IsShortLink(pathname, PostPrefix, id) {
        MatchShortLinkComplete(pathname, PostPrefix, id);
      } else if IsShortLink(pathname, ReelPrefix, id) {
        MatchShortLinkComplete(pathname, ReelPrefix, id);
      } else {
        MatchShortLinkComplete(pathname, ReelsPrefix, id);
      }
    }
  }

  /**
   * Only one trailing slash is tolerated: the pattern runs on the raw path,
   * so a doubled slash after the identifier matches nothing.
   */
  lemma DoubleTrailingSlashUnresolved()
    ensures ResolveTarget("/p/abc//", None) == None
  {
    var path := "/p/abc//";
    assert !IsIdChar(path[|path| - 1]);
    assert !IsIdChar(path[|path| - 2]);
    assert MatchShortLink(path, PostPrefix) == None;
    assert !(ReelPrefix <= path) by { assert path[1] != ReelPrefix[1]; }
    assert !(ReelsPrefix <= path) by { assert path[1] != ReelsPrefix[1]; }
  }

  /**
   * A synthesized URL is a fixed point: its own path, resolved again, yields
   * the same URL (the canonical `/p/<id>/` and `/reel/<id>/` forms).
   */
  lemma ResolvedUrlReresolves(pathname: string, target: Option<string>, u: string)
    requires !Present(target) && ResolveTarget(pathname, target) == Some(u)
    ensures InstagramOrigin <= u
    ensures ResolveTarget(u[|InstagramOrigin|..], None) == Some(u)
  {
    var p := MatchShortLink(pathname, PostPrefix);
    if p.Some? {
      var path := u[|InstagramOrigin|..];
      assert path == PostPrefix + p.value + "/";
      ResolvePostLink(path, None, p.value);
    } else {
      var r := MatchShortLink(pathname, ReelPrefix);
      var id := if r.Some? then r.value else MatchShortLink(pathname, ReelsPrefix).value;
      var path := u[|InstagramOrigin|..];
      assert path == ReelPrefix + id + "/";
      ResolveReelLink(path, None, id);
    }
  }
}
