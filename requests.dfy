/**
 * What the client sends and how it reads the answer, with the HTTP call
 * itself left abstract: the errors it raises before any request, the
 * authorization header, the create-link query string, and for every request
 * method the routing of the response status to an outcome.
 */
module Requests {
  import opened Wrappers
  import opened Json
  import opened Text
  import opened Records
  import opened Query

  /** The exceptions the client raises before sending anything. */
  datatype ApiError =
    | PublicationIdNotSet          // ValueError, the publication id is unset or falsy
    | LinkUrlIsNone                // ValueError, create with `url is None`
    | LinkTitleIsNone              // ValueError, create with `title is None`
    | LinkIdNotSet                 // ValueError, update with a falsy link id
    | QueryTypeError(field: string, value: JVal) // TypeError, `str + value` on a query field that is not a string

  /** Python's name for the type of a scalar. */
  function TypeName(v: JVal): string {
    match v
    case Null => "NoneType"
    case Str(_) => "str"
    case Int(_) => "int"
    case Bool(_) => "bool"
  }

  /** The message each error carries. */
  function Message(e: ApiError): string {
    match e
    case PublicationIdNotSet => "Publication ID has not been set."
    case LinkUrlIsNone => "URL of the CuratedLink instance cannot be None."
    case LinkTitleIsNone => "Title of the CuratedLink instance cannot be None."
    case LinkIdNotSet => "CuratedLink's id has not been set."
    case QueryTypeError(_, v) => TypeErrorPrefix + TypeName(v) + TypeErrorSuffix
  }

  const TypeErrorPrefix: string := "can only concatenate str (not \""
  const TypeErrorSuffix: string := "\") to str"

  /**
   * A caller can tell the errors apart by their messages: each `ValueError`
   * message belongs to one error only, and a `TypeError` message names the
   * type of the offending value.
   */
  lemma MessageIdentifiesError(e1: ApiError, e2: ApiError)
    requires Message(e1) == Message(e2)
    ensures !e1.QueryTypeError? ==> e1 == e2
    ensures e1.QueryTypeError? ==> e2.QueryTypeError? && TypeName(e1.value) == TypeName(e2.value)
  {
    if e1.QueryTypeError? {
      assert Message(e1)[0] == 'c';
      assert e2.QueryTypeError?;
      var m := Message(e1);
      var n := |TypeErrorPrefix|;
      assert |TypeName(e1.value)| == |TypeName(e2.value)|;
      assert TypeName(e1.value) == m[n..n + |TypeName(e1.value)|];
      assert TypeName(e2.value) == m[n..n + |TypeName(e2.value)|];
    } else {
      assert Message(e2)[0] == Message(e1)[0];
    }
  }

  /** The HTTP method of a request. */
  datatype Verb = HttpGet | HttpPost | HttpPut | HttpDelete

  datatype Body = NoBody | JsonBody(payload: Object)

  /** A request ready to send: the HTTP call itself is not modelled. */
  datatype Request = Request(verb: Verb, url: string, headers: map<string, string>, body: Body)

  // ------------------------------------------------------------ headers

  const TokenPrefix: string := "Token token=\""

  /** The `Authorization` header value, `Token token="{api_key}"`. */
  function Authorization(apiKey: string): string {
    TokenPrefix + apiKey + "\""
  }

  /** Reads the API key back out of an `Authorization` value, if it has the token form. */
  function AuthToken(h: string): Option<string> {
    if |h| > |TokenPrefix| && TokenPrefix <= h && h[|h| - 1] == '"'
    then Some(h[|TokenPrefix|..|h| - 1])
    else None
  }

  /** The header carries the key unaltered. */
  lemma AuthTokenOfAuthorization(apiKey: string)
    ensures AuthToken(Authorization(apiKey)) == Some(apiKey)
  {
  }

  /** Any header of the token form is the header built from the key read out of it. */
  lemma AuthorizationOfAuthToken(h: string)
    ensures AuthToken(h).Some? ==> Authorization(AuthToken(h).value) == h
  {
  }

  // ------------------------------------------------------ create-link query

  /**
   * The create-link query, built by plain concatenation with no encoding.
   * Python evaluates `"?url=" + url + "&title=" + title + ...` left to right,
   * so the first field that is not a string raises the `TypeError`.
   */
  function CreateLinkQuery(l: Link): (r: Result<string, ApiError>)
    ensures r.Success? <==>
      l.url.Str? && l.title.Str? && l.description.Str? && l.image.Str? && l.category.Str?
    ensures !l.url.Str? ==> r == Failure(QueryTypeError("url", l.url))
    ensures l.url.Str? && !l.title.Str? ==> r == Failure(QueryTypeError("title", l.title))
    ensures l.url.Str? && l.title.Str? && !l.description.Str? ==>
      r == Failure(QueryTypeError("description", l.description))
    ensures l.url.Str? && l.title.Str? && l.description.Str? && !l.image.Str? ==>
      r == Failure(QueryTypeError("image", l.image))
    ensures l.url.Str? && l.title.Str? && l.description.Str? && l.image.Str? && !l.category.Str? ==>
      r == Failure(QueryTypeError("category", l.category))
    ensures r.Success? ==> r.value == QueryText(l.url.s, l.title.s, l.description.s, l.image.s, l.category.s)
  {
    if !l.url.Str? then Failure(QueryTypeError("url", l.url))
    else if !l.title.Str? then Failure(QueryTypeError("title", l.title))
    else if !l.description.Str? then Failure(QueryTypeError("description", l.description))
    else if !l.image.Str? then Failure(QueryTypeError("image", l.image))
    else if !l.category.Str? then Failure(QueryTypeError("category", l.category))
    else Success(QueryText(l.url.s, l.title.s, l.description.s, l.image.s, l.category.s))
  }

  /**
   * When no field holds `&`, a split-only reading of the query gives back the
   * five parameters as they were given (the description still wrapped in the
   * quotes the client adds).
   */
  lemma {:induction false} CreateLinkQueryRoundTrip(l: Link)
    requires CreateLinkQuery(l).Success?
    requires '&' !in l.url.s && '&' !in l.title.s && '&' !in l.description.s
    requires '&' !in l.image.s && '&' !in l.category.s
    ensures ParseQuery(CreateLinkQuery(l).value)
         == Some(QueryPairs(l.url.s, l.title.s, l.description.s, l.image.s, l.category.s))
  {
    QueryTextRoundTrip(l.url.s, l.title.s, l.description.s, l.image.s, l.category.s);
  }

  /** Without encoding, an `&` in a field lets two different links send the same query. */
  lemma CreateLinkQueryAmbiguous()
    ensures var a := Link(Str("a&title=b"), Str("c"), Str("d"), Str("e"), Str("f"));
            var b := Link(Str("a"), Str("b&title=c"), Str("d"), Str("e"), Str("f"));
            a != b && CreateLinkQuery(a) == CreateLinkQuery(b)
  {
    assert QueryText("a&title=b", "c", "d", "e", "f") == QueryText("a", "b&title=c", "d", "e", "f");
  }

  // ------------------------------------------------------ status routing

  /**
   * The outcome of a request once its status is known: the method's return
   * value, the `HTTPError` that `raise_for_status()` raises, or `None` when the
   * status is neither the expected one nor one that `raise_for_status()` rejects.
   */
  datatype Outcome<T> = Done(value: T) | HttpError(status: int) | NoValue

  /** `raise_for_status()` raises for client and server errors only. */
  predicate RaisesForStatus(status: int) {
    400 <= status < 600
  }

  /** The routing every request method but delete shares: one expected status, then `raise_for_status()`. */
  function Route<T>(status: int, expected: int, value: T): (r: Outcome<T>)
    requires !RaisesForStatus(expected)
    ensures r.Done? <==> status == expected
    ensures r.Done? ==> r.value == value
    ensures r.HttpError? <==> RaisesForStatus(status)
    ensures r.HttpError? ==> r.status == status
  {
    if status == expected then Done(value)
    else if RaisesForStatus(status) then HttpError(status)
    else NoValue
  }

  /** `request_all_publications`: 200 returns the decoded body as is. */
  function RouteAllPublications<B>(status: int, body: B): (r: Outcome<B>)
    ensures r.Done? <==> status == 200
    ensures r.Done? ==> r.value == body
    ensures r.HttpError? <==> RaisesForStatus(status)
  {
    Route(status, 200, body)
  }

  /** `request_all_categories`: 200 decodes each element of the body into a category. */
  function RouteAllCategories(status: int, items: seq<Object>): (r: Outcome<seq<Category>>)
    ensures r.Done? <==> status == 200
    ensures r.Done? ==> |r.value| == |items|
    ensures r.Done? ==> forall k :: 0 <= k < |items| ==> r.value[k] == CategoryFromJson(items[k])
    ensures r.HttpError? <==> RaisesForStatus(status)
  {
    Route(status, 200, DecodeCategories(items))
  }

  /** `request_all_links`: 200 decodes each element of the body into a link. */
  function RouteAllLinks(status: int, items: seq<Object>): (r: Outcome<seq<Link>>)
    ensures r.Done? <==> status == 200
    ensures r.Done? ==> |r.value| == |items|
    ensures r.Done? ==> forall k :: 0 <= k < |items| ==> r.value[k] == LinkFromJson(items[k])
    ensures r.HttpError? <==> RaisesForStatus(status)
  {
    Route(status, 200, DecodeLinks(items))
  }

  /** `request_specific_link`: 200 decodes the body into a link. */
  function RouteSpecificLink(status: int, item: Object): (r: Outcome<Link>)
    ensures r.Done? <==> status == 200
    ensures r.Done? ==> r.value == LinkFromJson(item)
    ensures r.HttpError? <==> RaisesForStatus(status)
  {
    Route(status, 200, LinkFromJson(item))
  }

  /** `create_curated_link`: only 201 succeeds, decoding the body into the created link. */
  function RouteCreateLink(status: int, item: Object): (r: Outcome<Link>)
    ensures r.Done? <==> status == 201
    ensures r.Done? ==> r.value == LinkFromJson(item)
    ensures r.HttpError? <==> RaisesForStatus(status)
  {
    Route(status, 201, LinkFromJson(item))
  }

  /** `update_specific_link`: 200 returns the decoded body without turning it into a link. */
  function RouteUpdateLink<B>(status: int, body: B): (r: Outcome<B>)
    ensures r.Done? <==> status == 200
    ensures r.Done? ==> r.value == body
    ensures r.HttpError? <==> RaisesForStatus(status)
  {
    Route(status, 200, body)
  }

  const DeletedMessage: string := "Link deletion successful."
  const NotFoundMessage: string := "Link not found."

  /** `delete_specific_link`: 204 and 404 are both normal returns, told apart by their messages. */
  function RouteDeleteLink(status: int): (r: Outcome<string>)
    ensures r == Done(DeletedMessage) <==> status == 204
    ensures r == Done(NotFoundMessage) <==> status == 404
    ensures r.HttpError? <==> RaisesForStatus(status) && status != 404
    ensures r.HttpError? ==> r.status == status
    ensures r.NoValue? <==> status != 204 && !RaisesForStatus(status)
  {
    if status == 204 then Done(DeletedMessage)
    else if status == 404 then Done(NotFoundMessage)
    else if RaisesForStatus(status) then HttpError(status)
    else NoValue
  }

  /**
   * The request methods succeed on exactly their expected status; a 404 is an
   * error for every one of them except delete, where it is a normal result.
   */
  lemma RoutingByStatus(status: int, items: seq<Object>, item: Object)
    ensures RouteAllCategories(status, items).Done? <==> status == 200
    ensures RouteAllLinks(status, items).Done? <==> status == 200
    ensures RouteSpecificLink(status, item).Done? <==> status == 200
    ensures RouteCreateLink(status, item).Done? <==> status == 201
    ensures RouteUpdateLink(status, item).Done? <==> status == 200
    ensures RouteAllPublications(status, item).Done? <==> status == 200
    ensures status == 404 ==>
      && RouteAllCategories(status, items) == HttpError(404)
      && RouteAllLinks(status, items) == HttpError(404)
      && RouteSpecificLink(status, item) == HttpError(404)
      && RouteCreateLink(status, item) == HttpError(404)
      && RouteUpdateLink(status, item) == HttpError(404)
      && RouteAllPublications(status, item) == HttpError(404)
      && RouteDeleteLink(status) == Done(NotFoundMessage)
    ensures RouteCreateLink(200, item) == NoValue
    ensures RouteAllCategories(status, items).Done? ==>
      RouteAllCategories(status, items).value == DecodeCategories(items)
    ensures RouteAllLinks(status, items).Done? ==>
      RouteAllLinks(status, items).value == DecodeLinks(items)
  {
  }

  /** A caller can tell "deleted", "not found", "failed" and "no result" apart. */
  lemma DeleteOutcomesDistinct(status: int)
    ensures DeletedMessage != NotFoundMessage
    ensures var r := RouteDeleteLink(status);
      (r == Done(DeletedMessage)) || (r == Done(NotFoundMessage)) || r.HttpError? || r.NoValue?
    ensures RouteDeleteLink(status).Done? <==> status == 204 || status == 404
  {
  }
}
