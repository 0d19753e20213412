/**
 * The resource URLs the client builds: the fixed API base, the unscoped
 * publications listing, and `{base}/publications/{pid}/{resource}` for every
 * publication-scoped resource. `ParseScopedUrl` reads a scoped URL back into
 * its publication id and resource path.
 */
module Urls {
  import opened Wrappers
  import opened Json
  import opened Text

  /** The API base every URL starts with. */
  const BaseUrl: string := "https://api.curated.co/api/v3"

  /** The publications listing, `{base}/publications`. */
  function PublicationsUrl(base: string): string {
    base + "/publications"
  }

  /** A publication-scoped resource, `{base}/publications/{pid}/{resource}`. */
  function ScopedUrl(base: string, pid: string, resource: string): (url: string)
    ensures PublicationsUrl(base) + "/" <= url
  {
    PublicationsUrl(base) + "/" + pid + "/" + resource
  }

  /** The resource path of one link, `links/{link_id}`, with the id formatted as an f-string does. */
  function LinkResource(linkId: JVal): string {
    "links/" + PyStr(linkId)
  }

  /**
   * Reads a scoped URL back: the first path segment after `{base}/publications/`
   * is the publication id and the rest is the resource path.
   */
  function ParseScopedUrl(base: string, url: string): Option<(string, string)> {
    var prefix := PublicationsUrl(base) + "/";
    if prefix <= url then
      var parts := Split(url[|prefix|..], '/');
      if |parts| >= 2 then Some((parts[0], Join(parts[1..], '/'))) else None
    else None
  }

  /** A scoped URL whose publication id holds no `/` parses back to that id and resource. */
  lemma {:induction false} ParseScopedUrlRoundTrip(base: string, pid: string, resource: string)
    requires '/' !in pid
    ensures ParseScopedUrl(base, ScopedUrl(base, pid, resource)) == Some((pid, resource))
  {
    var prefix := PublicationsUrl(base) + "/";
    var url := ScopedUrl(base, pid, resource);
    assert url[|prefix|..] == pid + ['/'] + resource;
    SplitAtFirstSep(pid, '/', resource);
    var parts := Split(url[|prefix|..], '/');
    assert parts[0] == pid && parts[1..] == Split(resource, '/');
    JoinSplit(resource, '/');
  }

  /** Whatever parses was built by `ScopedUrl`, from an id without `/`. */
  lemma {:induction false} ParseScopedUrlSound(base: string, url: string, pid: string, resource: string)
    requires ParseScopedUrl(base, url) == Some((pid, resource))
    ensures '/' !in pid
    ensures ScopedUrl(base, pid, resource) == url
  {
    var prefix := PublicationsUrl(base) + "/";
    var rest := url[|prefix|..];
    var parts := Split(rest, '/');
    JoinSplit(rest, '/');
    assert Join(parts, '/') == parts[0] + ['/'] + Join(parts[1..], '/');
    assert url == prefix + rest;
  }

  /** Scoped URLs over ids without `/` never collide: the URL determines id and resource. */
  lemma ScopedUrlInjective(base: string, p1: string, r1: string, p2: string, r2: string)
    requires '/' !in p1 && '/' !in p2
    requires ScopedUrl(base, p1, r1) == ScopedUrl(base, p2, r2)
    ensures p1 == p2 && r1 == r2
  {
    ParseScopedUrlRoundTrip(base, p1, r1);
    ParseScopedUrlRoundTrip(base, p2, r2);
  }

  /** With `/` inside a publication id, two different (id, link) pairs give the same link URL. */
  lemma LinkUrlAmbiguousForSlashedIds()
    ensures ScopedUrl(BaseUrl, "1/links/2", LinkResource(Str("3")))
         == ScopedUrl(BaseUrl, "1", LinkResource(Str("2/links/3")))
  {
  }
}
