/**
 * `CuratedApi`: the client object. Its base URL and API key are fixed at
 * construction; its publication id is session state that `set_publication_id`
 * writes and that most getters and request methods overwrite when they are
 * passed a truthy `publication_id`. Each request method is modelled up to the
 * request it would send ("prepare"); the HTTP call is left abstract and the
 * response status is routed by the functions of module `Requests`.
 */
module Client {
  import opened Wrappers
  import opened Json
  import opened Records
  import opened Urls
  import opened Requests

  /** Python truthiness of a publication id: `None` and `""` count as unset. */
  predicate IsSet(pid: Option<string>) {
    pid.Some? && pid.value != ""
  }

  /** `if publication_id: self.publication_id = publication_id`. */
  function Adopt(stored: Option<string>, pid: Option<string>): Option<string> {
    if IsSet(pid) then pid else stored
  }

  /**
   * After adopting, an id is set exactly when a truthy one was passed or one
   * was already stored; a falsy argument changes nothing, and adopting the
   * same argument again changes nothing more.
   */
  lemma AdoptRules(stored: Option<string>, pid: Option<string>)
    ensures IsSet(Adopt(stored, pid)) <==> IsSet(stored) || IsSet(pid)
    ensures !IsSet(pid) ==> Adopt(stored, pid) == stored
    ensures Adopt(Adopt(stored, pid), pid) == Adopt(stored, pid)
  {
  }

  class CuratedApi {
    const baseUrl: string
    const apiKey: string
    var publicationId: Option<string>

    /** `CuratedApi(api_key)`: the fixed base URL and no publication id yet. */
    constructor (apiKey: string)
      ensures baseUrl == BaseUrl && this.apiKey == apiKey
      ensures publicationId == None
    {
      baseUrl := BaseUrl;
      this.apiKey := apiKey;
      publicationId := None;
    }

    /** `set_publication_id`: stores the id as given, even a falsy one. */
    method SetPublicationId(pid: Option<string>)
      modifies this
      ensures publicationId == pid
    {
      publicationId := pid;
    }

    // ------------------------------------------------------------ URLs

    /** `get_categories_url`: adopts a truthy argument, then needs a set id. */
    method GetCategoriesUrl(pid: Option<string>) returns (r: Result<string, ApiError>)
      modifies this
      ensures publicationId == Adopt(old(publicationId), pid)
      ensures r.Success? <==> IsSet(publicationId)
      ensures r.Failure? ==> r.error == PublicationIdNotSet
      ensures r.Success? ==> r.value == ScopedUrl(baseUrl, publicationId.value, "categories")
    {
      if IsSet(pid) {
        publicationId := pid;
      }
      if !IsSet(publicationId) {
        return Failure(PublicationIdNotSet);
      }
      r := Success(ScopedUrl(baseUrl, publicationId.value, "categories"));
    }

    /** `get_publication_links_url`: the stored id only. */
    function GetPublicationLinksUrl(): (r: Result<string, ApiError>)
      reads this
      ensures r.Success? <==> IsSet(publicationId)
      ensures r.Failure? ==> r.error == PublicationIdNotSet
      ensures r.Success? ==> r.value == ScopedUrl(baseUrl, publicationId.value, "links")
    {
      if !IsSet(publicationId) then Failure(PublicationIdNotSet)
      else Success(ScopedUrl(baseUrl, publicationId.value, "links"))
    }

    /** `get_publication_issues_url`: the stored id only. */
    function GetPublicationIssuesUrl(): (r: Result<string, ApiError>)
      reads this
      ensures r.Success? <==> IsSet(publicationId)
      ensures r.Failure? ==> r.error == PublicationIdNotSet
      ensures r.Success? ==> r.value == ScopedUrl(baseUrl, publicationId.value, "issues")
    {
      if !IsSet(publicationId) then Failure(PublicationIdNotSet)
      else Success(ScopedUrl(baseUrl, publicationId.value, "issues"))
    }

    /** `get_publications_url`: the URL does not use the id, yet an unset id still fails. */
    function GetPublicationsUrl(): (r: Result<string, ApiError>)
      reads this
      ensures r.Success? <==> IsSet(publicationId)
      ensures r.Failure? ==> r.error == PublicationIdNotSet
      ensures r.Success? ==> r.value == PublicationsUrl(baseUrl)
    {
      if !IsSet(publicationId) then Failure(PublicationIdNotSet)
      else Success(PublicationsUrl(baseUrl))
    }

    /** `get_links_url`: adopts a truthy argument, then needs a set id. */
    method GetLinksUrl(pid: Option<string>) returns (r: Result<string, ApiError>)
      modifies this
      ensures publicationId == Adopt(old(publicationId), pid)
      ensures r.Success? <==> IsSet(publicationId)
      ensures r.Failure? ==> r.error == PublicationIdNotSet
      ensures r.Success? ==> r.value == ScopedUrl(baseUrl, publicationId.value, "links")
    {
      if IsSet(pid) {
        publicationId := pid;
      }
      if !IsSet(publicationId) {
        return Failure(PublicationIdNotSet);
      }
      r := Success(ScopedUrl(baseUrl, publicationId.value, "links"));
    }

    /** `get_link_url`: adopts a truthy argument; the link id is formatted as `str(link_id)`. */
    method GetLinkUrl(linkId: JVal, pid: Option<string>) returns (r: Result<string, ApiError>)
      modifies this
      ensures publicationId == Adopt(old(publicationId), pid)
      ensures r.Success? <==> IsSet(publicationId)
      ensures r.Failure? ==> r.error == PublicationIdNotSet
      ensures r.Success? ==> r.value == ScopedUrl(baseUrl, publicationId.value, LinkResource(linkId))
    {
      if IsSet(pid) {
        publicationId := pid;
      }
      if !IsSet(publicationId) {
        return Failure(PublicationIdNotSet);
      }
      r := Success(ScopedUrl(baseUrl, publicationId.value, LinkResource(linkId)));
    }

    /** `get_request_headers`: exactly three entries, the third carrying the API key. */
    function GetRequestHeaders(): (h: map<string, string>)
      ensures h.Keys == {"Accept", "Content-type", "Authorization"}
      ensures h["Accept"] == "application/json" && h["Content-type"] == "application/json"
      ensures AuthToken(h["Authorization"]) == Some(apiKey)
    {
      AuthTokenOfAuthorization(apiKey);
      map["Accept" := "application/json",
          "Content-type" := "application/json",
          "Authorization" := Authorization(apiKey)]
    }

    // -------------------------------------------------------- requests

    /** `request_all_publications` up to the GET it sends. */
    method PrepareAllPublications(pid: Option<string>) returns (r: Result<Request, ApiError>)
      modifies this
      ensures publicationId == Adopt(old(publicationId), pid)
      ensures r.Success? <==> IsSet(publicationId)
      ensures r.Failure? ==> r.error == PublicationIdNotSet
      ensures r.Success? ==> r.value == Request(HttpGet, PublicationsUrl(baseUrl), GetRequestHeaders(), NoBody)
    {
      if IsSet(pid) {
        publicationId := pid;
      }
      if !IsSet(publicationId) {
        return Failure(PublicationIdNotSet);
      }
      var url := GetPublicationsUrl();
      r := Success(Request(HttpGet, url.value, GetRequestHeaders(), NoBody));
    }

    /** `request_all_categories` up to the GET it sends. */
    method PrepareAllCategories(pid: Option<string>) returns (r: Result<Request, ApiError>)
      modifies this
      ensures publicationId == Adopt(old(publicationId), pid)
      ensures r.Success? <==> IsSet(publicationId)
      ensures r.Failure? ==> r.error == PublicationIdNotSet
      ensures r.Success? ==>
        r.value == Request(HttpGet, ScopedUrl(baseUrl, publicationId.value, "categories"), GetRequestHeaders(), NoBody)
    {
      if IsSet(pid) {
        publicationId := pid;
      }
      if !IsSet(publicationId) {
        return Failure(PublicationIdNotSet);
      }
      var url := GetCategoriesUrl(None);
      r := Success(Request(HttpGet, url.value, GetRequestHeaders(), NoBody));
    }

    /** `request_all_links` up to the GET it sends. */
    method PrepareAllLinks(pid: Option<string>) returns (r: Result<Request, ApiError>)
      modifies this
      ensures publicationId == Adopt(old(publicationId), pid)
      ensures r.Success? <==> IsSet(publicationId)
      ensures r.Failure? ==> r.error == PublicationIdNotSet
      ensures r.Success? ==>
        r.value == Request(HttpGet, ScopedUrl(baseUrl, publicationId.value, "links"), GetRequestHeaders(), NoBody)
    {
      if IsSet(pid) {
        publicationId := pid;
      }
      if !IsSet(publicationId) {
        return Failure(PublicationIdNotSet);
      }
      var url := GetLinksUrl(None);
      r := Success(Request(HttpGet, url.value, GetRequestHeaders(), NoBody));
    }

    /** `request_specific_link` up to the GET it sends. */
    method PrepareSpecificLink(linkId: JVal, pid: Option<string>) returns (r: Result<Request, ApiError>)
      modifies this
      ensures publicationId == Adopt(old(publicationId), pid)
      ensures r.Success? <==> IsSet(publicationId)
      ensures r.Failure? ==> r.error == PublicationIdNotSet
      ensures r.Success? ==>
        r.value == Request(HttpGet, ScopedUrl(baseUrl, publicationId.value, LinkResource(linkId)),
                           GetRequestHeaders(), NoBody)
    {
      if IsSet(pid) {
        publicationId := pid;
      }
      if !IsSet(publicationId) {
        return Failure(PublicationIdNotSet);
      }
      var url := GetLinkUrl(linkId, publicationId);
      r := Success(Request(HttpGet, url.value, GetRequestHeaders(), NoBody));
    }

    /**
     * `create_curated_link` up to the POST it sends: `url` and `title` must
     * not be `None`, then the stored id must be set, then every query field
     * must be a string. It takes no publication id, so the stored one stays.
     */
    method PrepareCreateLink(link: Link) returns (r: Result<Request, ApiError>)
      modifies this
      ensures publicationId == old(publicationId)
      ensures link.url == Null ==> r == Failure(LinkUrlIsNone)
      ensures link.url != Null && link.title == Null ==> r == Failure(LinkTitleIsNone)
      ensures link.url != Null && link.title != Null && !IsSet(publicationId) ==>
        r == Failure(PublicationIdNotSet)
      ensures link.url != Null && link.title != Null && IsSet(publicationId) ==>
        r == match CreateLinkQuery(link)
             case Failure(e) => Failure(e)
             case Success(q) =>
               Success(Request(HttpPost, ScopedUrl(baseUrl, publicationId.value, "links") + q,
                               GetRequestHeaders(), NoBody))
    {
      if link.url == Null {
        return Failure(LinkUrlIsNone);
      }
      if link.title == Null {
        return Failure(LinkTitleIsNone);
      }
      var url := GetLinksUrl(None);
      if url.Failure? {
        return Failure(url.error);
      }
      var query := CreateLinkQuery(link);
      if query.Failure? {
        return Failure(query.error);
      }
      r := Success(Request(HttpPost, url.value + query.value, GetRequestHeaders(), NoBody));
    }

    /** `delete_specific_link` up to the DELETE it sends. */
    method PrepareDeleteLink(linkId: JVal, pid: Option<string>) returns (r: Result<Request, ApiError>)
      modifies this
      ensures publicationId == Adopt(old(publicationId), pid)
      ensures r.Success? <==> IsSet(publicationId)
      ensures r.Failure? ==> r.error == PublicationIdNotSet
      ensures r.Success? ==>
        r.value == Request(HttpDelete, ScopedUrl(baseUrl, publicationId.value, LinkResource(linkId)),
                           GetRequestHeaders(), NoBody)
    {
      if IsSet(pid) {
        publicationId := pid;
      }
      if !IsSet(publicationId) {
        return Failure(PublicationIdNotSet);
      }
      var url := GetLinkUrl(linkId, publicationId);
      r := Success(Request(HttpDelete, url.value, GetRequestHeaders(), NoBody));
    }

    /**
     * `update_specific_link` up to the PUT it sends: the id must be set, then
     * the link's own id must be truthy; the body is the link's wire object.
     */
    method PrepareUpdateLink(link: Link, pid: Option<string>) returns (r: Result<Request, ApiError>)
      modifies this
      ensures publicationId == Adopt(old(publicationId), pid)
      ensures !IsSet(publicationId) ==> r == Failure(PublicationIdNotSet)
      ensures IsSet(publicationId) && !Truthy(link.id) ==> r == Failure(LinkIdNotSet)
      ensures IsSet(publicationId) && Truthy(link.id) ==>
        r == Success(Request(HttpPut, ScopedUrl(baseUrl, publicationId.value, LinkResource(link.id)),
                             GetRequestHeaders(), JsonBody(LinkToJson(link))))
    {
      if IsSet(pid) {
        publicationId := pid;
      }
      if !IsSet(publicationId) {
        return Failure(PublicationIdNotSet);
      }
      if !Truthy(link.id) {
        return Failure(LinkIdNotSet);
      }
      var url := GetLinkUrl(link.id, None);
      r := Success(Request(HttpPut, url.value, GetRequestHeaders(), JsonBody(LinkToJson(link))));
    }
  }

  // ------------------------------------------------------------ sessions

  /**
   * A client that was never given a truthy publication id refuses every
   * publication-scoped request before building it, whatever falsy id the
   * call passes.
   */
  method UnsetClientRefusesRequests(apiKey: string, pid: Option<string>, linkId: JVal, link: Link)
    returns (results: seq<Result<Request, ApiError>>)
    requires !IsSet(pid)
    requires link.url != Null && link.title != Null
    ensures |results| == 7
    ensures forall k :: 0 <= k < |results| ==> results[k] == Failure(PublicationIdNotSet)
  {
    var api := new CuratedApi(apiKey);
    var r0 := api.PrepareAllPublications(pid);
    var r1 := api.PrepareAllCategories(pid);
    var r2 := api.PrepareAllLinks(pid);
    var r3 := api.PrepareSpecificLink(linkId, pid);
    var r4 := api.PrepareCreateLink(link);
    var r5 := api.PrepareDeleteLink(linkId, pid);
    var r6 := api.PrepareUpdateLink(link, pid);
    results := [r0, r1, r2, r3, r4, r5, r6];
  }

  /**
   * An id passed to one getter is kept for later calls: after asking for
   * link 7 of publication 42, the categories URL is that of publication 42.
   */
  method StickyPublicationId(apiKey: string) returns (link: Result<string, ApiError>, categories: Result<string, ApiError>)
    ensures link == Success("https://api.curated.co/api/v3/publications/42/links/7")
    ensures categories == Success("https://api.curated.co/api/v3/publications/42/categories")
  {
    var api := new CuratedApi(apiKey);
    link := api.GetLinkUrl(Str("7"), Some("42"));
    categories := api.GetCategoriesUrl(None);
    assert api.publicationId == Some("42");
    assert LinkResource(Str("7")) == "links/7";
    assert ScopedUrl(BaseUrl, "42", "links/7") == "https://api.curated.co/api/v3/publications/42/links/7";
    assert ScopedUrl(BaseUrl, "42", "categories") == "https://api.curated.co/api/v3/publications/42/categories";
  }
}
