# CuratedAPI client core, modelled in Dafny

This project models the request-preparation and mapping layer of the Python
client for the Curated newsletter API (`src/curatedapi_wm/curatedapi.py`):

- **Records.** `CuratedLink` and `CuratedCategory` are mapped to and from a
  decoded wire object (`from_json`, `to_json`). A wire object is a
  `map<string, JVal>`, where `JVal` is Python's `None`, `str`, `int` or `bool`,
  and `d.get(k)` is `Get(d, k)`. JSON text is not modelled.
- **The client object.** `CuratedApi` is a class with a constant `baseUrl`, a
  constant `apiKey` and a mutable `publicationId: Option<string>`. Python
  truthiness decides whether an id is set, so `""` counts as unset. The URL
  getters and request methods that take a `publication_id` argument store it
  when it is truthy (`Adopt`), then fail with `PublicationIdNotSet` when no
  truthy id is stored.
- **Requests.** Each request method is modelled in two parts:
  - a `Prepare…` method runs the checks the source makes before any network
    call, updates the stored id, and returns the `Request` it would send
    (verb, URL, headers, body) or the error it raises;
  - a `Route…` function maps the response status to the method's outcome.
  The HTTP call itself stays abstract.
- **Parsing back.** Two parsers read built values back:
  - `ParseScopedUrl` reads a URL into its publication id and resource path;
  - `ParseQuery` reads the create-link query into its parameters by splitting
    alone (on `&`, then at the first `=`), with no percent-decoding.
  Round-trip lemmas about them state what the builders preserve, and where they
  stop preserving it.

Modules: `Wrappers` (Option, Result), `Json` (scalars, `.get`, truthiness,
`str()`), `Text` (split and join), `Records`, `Urls`, `Query`, `Requests`
(errors, headers, create-link query, status routing), `Client` (the class).

The model follows the code as written, including these behaviours a caller
may not expect:

- The create-link query is concatenated without percent-encoding. A `None`
  description, image or category is not omitted; it makes `str + None` raise
  a `TypeError` (`QueryTypeError`).
- A status that is neither the expected one nor 4xx/5xx does not raise.
  `raise_for_status()` raises only for 400–599, so for such a status the
  Python method falls off its end and returns `None` (`Outcome.NoValue`).
- `create_curated_link` checks `url` and `title` before the publication id.
  It takes no `publication_id` argument and never changes the stored one.
- `get_publications_url` fails when no publication id is stored, although its
  URL does not use one.
- `update_specific_link` returns the decoded response body as it is, not a
  `CuratedLink`.
- There are no issue, email or paged-response records and no issue or
  subscriber requests in the code. The issues URL getter is the only issue
  support.

## Model

| member | source | states |
|---|---|---|
| `Json.PyStr` | src/curatedapi_wm/curatedapi.py:236 | the f-string text of a link id: a string is kept as is, an integer reads back to its value (a leading `-` for negatives), and a truthy value never gives `""` |
| `Records.LinkToJson` | src/curatedapi_wm/curatedapi.py:56-63 | the link's wire object has exactly the keys url, title, description, image, category, id and no `image_url` |
| `Records.CategoryToJson` | src/curatedapi_wm/curatedapi.py:102-107 | the category's wire object has exactly the keys code, name, sponsored, limit |
| `Records.LinkFromJson` | src/curatedapi_wm/curatedapi.py:40-47 | decodes a wire object into a link; its meaning is stated by `Records.LinkFromJsonFields` and the round-trip lemmas |
| `Records.LinkFromJsonFields` | src/curatedapi_wm/curatedapi.py:40-47 | decoding reads `image` from `image_url` and every other field from its own key; an absent key gives `None` |
| `Records.LinkFromJsonIgnoresImageKey` | src/curatedapi_wm/curatedapi.py:44 | a wire key named `image` has no effect on the decoded link |
| `Records.LinkRoundTrip` | src/curatedapi_wm/curatedapi.py:40-63 | decode after encode keeps url, title, description, category and id but sets image to `None`; the link comes back unchanged exactly when its image was `None` |
| `Records.LinkJsonRoundTrip` | src/curatedapi_wm/curatedapi.py:40-63 | encode after decode of an object with exactly the decoder's keys renames `image_url` to `image` and keeps every other entry |
| `Records.CategoryFromJson` | src/curatedapi_wm/curatedapi.py:88-93 | decodes a wire object into a category; its meaning is stated by `Records.CategorySponsoredDefault` and the round-trip lemmas |
| `Records.CategorySponsoredDefault` | src/curatedapi_wm/curatedapi.py:88-93 | an absent `sponsored` key decodes to `False`, never `None`; a present one is kept; the empty object decodes to the default category |
| `Records.CategoryRoundTrip` | src/curatedapi_wm/curatedapi.py:88-107 | decode after encode gives back the category with all four fields |
| `Records.CategoryJsonRoundTrip` | src/curatedapi_wm/curatedapi.py:88-107 | encode after decode fills the decoder's defaults into absent keys, and gives back an object that already has all four keys unchanged |
| `Records.DecodeLinks` | src/curatedapi_wm/curatedapi.py:316-317 | the decoded list has one link per element, in order, each the decoding of that element |
| `Records.DecodeCategories` | src/curatedapi_wm/curatedapi.py:287-288 | the decoded list has one category per element, in order, each the decoding of that element |
| `Records.DecodedCategoriesSponsored` | src/curatedapi_wm/curatedapi.py:287-288 | every decoded category whose element lacks `sponsored` has `sponsored == False` |
| `Urls.PublicationsUrl` | src/curatedapi_wm/curatedapi.py:196 | `{base}/publications`, the prefix every scoped URL starts with (`Urls.ScopedUrl`) |
| `Urls.LinkResource` | src/curatedapi_wm/curatedapi.py:236 | `links/{str(link_id)}`; the text of the id is stated by `Json.PyStr` |
| `Urls.ScopedUrl` | src/curatedapi_wm/curatedapi.py:157 | every scoped URL starts with `{base}/publications/` |
| `Urls.ParseScopedUrlRoundTrip` | src/curatedapi_wm/curatedapi.py:236 | a scoped URL over an id without `/` reads back to that id and resource path |
| `Urls.ParseScopedUrlSound` | src/curatedapi_wm/curatedapi.py:236 | whatever reads back as (id, resource) is the scoped URL of that id and resource, and the id holds no `/` |
| `Urls.ScopedUrlInjective` | src/curatedapi_wm/curatedapi.py:170 | scoped URLs over ids without `/` determine the id and resource |
| `Urls.LinkUrlAmbiguousForSlashedIds` | src/curatedapi_wm/curatedapi.py:230-237 | an id holding `/` lets two different (publication, link) pairs give the same link URL |
| `Requests.Authorization` | src/curatedapi_wm/curatedapi.py:244 | builds `Token token="{api_key}"`; what it preserves is stated by `Requests.AuthTokenOfAuthorization` and `Requests.AuthorizationOfAuthToken` |
| `Requests.AuthTokenOfAuthorization` | src/curatedapi_wm/curatedapi.py:244 | the `Authorization` value carries the API key unaltered |
| `Requests.AuthorizationOfAuthToken` | src/curatedapi_wm/curatedapi.py:244 | any value of the `Token token="…"` form is the one built from the key read out of it |
| `Requests.Message` | src/curatedapi_wm/curatedapi.py:154 | the texts of the four `ValueError`s (lines 154, 365, 368, 433) and of Python's `TypeError` for `str + x`; what they let a caller tell apart is stated by `Requests.MessageIdentifiesError` |
| `Requests.MessageIdentifiesError` | src/curatedapi_wm/curatedapi.py:365-374 | equal messages mean the same `ValueError`; a `TypeError` message determines the type name of the offending value |
| `Requests.CreateLinkQuery` | src/curatedapi_wm/curatedapi.py:372-374 | the query exists exactly when url, title, description, image and category are all strings; otherwise the first non-string field, left to right (url, title, description, image, category), raises the `TypeError` |
| `Query.QueryText` | src/curatedapi_wm/curatedapi.py:372-374 | the query text, concatenated in the source's order with no encoding; what it preserves is stated by `Query.QueryTextRoundTrip` |
| `Query.QueryTextRoundTrip` | src/curatedapi_wm/curatedapi.py:372-374 | when no value holds `&`, a split-only reading of the query gives back url, title, description (in quotes), image and category, in that order |
| `Requests.CreateLinkQueryRoundTrip` | src/curatedapi_wm/curatedapi.py:372-374 | the same for the query built from a link |
| `Requests.CreateLinkQueryAmbiguous` | src/curatedapi_wm/curatedapi.py:372-374 | with no encoding, two different links can send the same query |
| `Requests.Route` | src/curatedapi_wm/curatedapi.py:259-263 | a request method returns its value exactly on its expected status, raises exactly on 400–599, and otherwise returns `None` |
| `Requests.RouteAllPublications` | src/curatedapi_wm/curatedapi.py:258-263 | 200 returns the body as is, 400–599 raises, any other status returns `None` |
| `Requests.RouteAllCategories` | src/curatedapi_wm/curatedapi.py:285-291 | 200 returns one category per element of the body, in order, each its decoding; 400–599 raises |
| `Requests.RouteAllLinks` | src/curatedapi_wm/curatedapi.py:314-320 | 200 returns one link per element of the body, in order, each its decoding; 400–599 raises |
| `Requests.RouteSpecificLink` | src/curatedapi_wm/curatedapi.py:344-349 | 200 returns the decoded link, 400–599 raises |
| `Requests.RouteCreateLink` | src/curatedapi_wm/curatedapi.py:378-384 | only 201 returns the decoded link, 400–599 raises |
| `Requests.RouteUpdateLink` | src/curatedapi_wm/curatedapi.py:441-446 | 200 returns the body as is, without decoding it into a link; 400–599 raises |
| `Requests.RouteDeleteLink` | src/curatedapi_wm/curatedapi.py:408-413 | 204 gives "Link deletion successful.", 404 gives "Link not found.", any other 4xx/5xx raises, and anything else returns `None` |
| `Requests.RoutingByStatus` | src/curatedapi_wm/curatedapi.py:285-446 | list, get and update succeed only on 200 and create only on 201; a 404 raises for all of them, but for delete it is the "not found" result; a 200 on create is not a success |
| `Requests.DeleteOutcomesDistinct` | src/curatedapi_wm/curatedapi.py:408-413 | a delete caller can always tell "deleted", "not found", "failed" and "no result" apart |
| `Client.Adopt` | src/curatedapi_wm/curatedapi.py:150-151 | `if publication_id: self.publication_id = publication_id`, shared by every method taking an id; its meaning is stated by `Client.AdoptRules` |
| `Client.AdoptRules` | src/curatedapi_wm/curatedapi.py:150-154 | after a call adopts its argument, an id is set exactly when a truthy one was passed or stored; a falsy argument changes nothing |
| `Client.CuratedApi.constructor` | src/curatedapi_wm/curatedapi.py:112-121 | the base URL is the fixed API base, the key is the one given, and no publication id is stored |
| `Client.CuratedApi.SetPublicationId` | src/curatedapi_wm/curatedapi.py:131-138 | only the stored id changes, to the value given (even a falsy one) |
| `Client.CuratedApi.GetCategoriesUrl` | src/curatedapi_wm/curatedapi.py:140-158 | adopts a truthy argument, then returns the categories URL of the stored id, or fails when it is unset |
| `Client.CuratedApi.GetPublicationLinksUrl` | src/curatedapi_wm/curatedapi.py:160-171 | the links URL of the stored id, or failure when it is unset |
| `Client.CuratedApi.GetPublicationIssuesUrl` | src/curatedapi_wm/curatedapi.py:173-184 | the issues URL of the stored id, or failure when it is unset |
| `Client.CuratedApi.GetPublicationsUrl` | src/curatedapi_wm/curatedapi.py:186-197 | `{base}/publications`, yet failure when no id is stored |
| `Client.CuratedApi.GetLinksUrl` | src/curatedapi_wm/curatedapi.py:199-217 | adopts a truthy argument, then returns the links URL of the stored id, or fails when it is unset |
| `Client.CuratedApi.GetLinkUrl` | src/curatedapi_wm/curatedapi.py:219-237 | adopts a truthy argument, then returns `…/links/{str(link_id)}` for the stored id, or fails when it is unset |
| `Client.CuratedApi.GetRequestHeaders` | src/curatedapi_wm/curatedapi.py:239-246 | exactly Accept and Content-type `application/json` and an Authorization carrying the API key |
| `Client.CuratedApi.PrepareAllPublications` | src/curatedapi_wm/curatedapi.py:248-257 | adopts, fails when unset, else a GET of the publications URL with the standard headers |
| `Client.CuratedApi.PrepareAllCategories` | src/curatedapi_wm/curatedapi.py:265-283 | adopts, fails when unset, else a GET of the categories URL |
| `Client.CuratedApi.PrepareAllLinks` | src/curatedapi_wm/curatedapi.py:293-312 | adopts, fails when unset, else a GET of the links URL |
| `Client.CuratedApi.PrepareSpecificLink` | src/curatedapi_wm/curatedapi.py:322-342 | adopts, fails when unset, else a GET of the link's URL |
| `Client.CuratedApi.PrepareCreateLink` | src/curatedapi_wm/curatedapi.py:351-376 | a `None` url fails, then a `None` title, then an unset id, then a non-string query field; else a POST to the links URL plus the query; the stored id never changes |
| `Client.CuratedApi.PrepareDeleteLink` | src/curatedapi_wm/curatedapi.py:386-406 | adopts, fails when unset, else a DELETE of the link's URL |
| `Client.CuratedApi.PrepareUpdateLink` | src/curatedapi_wm/curatedapi.py:415-439 | adopts, fails when unset, then fails on a falsy link id, else a PUT of the link's URL with the link's wire object as body |
| `Client.UnsetClientRefusesRequests` | src/curatedapi_wm/curatedapi.py:248-437 | a client never given a truthy id refuses every scoped request before building one |
| `Client.StickyPublicationId` | src/curatedapi_wm/curatedapi.py:219-237 | an id passed to `get_link_url` is kept: link 7 of publication 42 is `…/publications/42/links/7`, and the next categories URL is that of publication 42 |

## Left out

- HTTP I/O is not modelled. This covers `requests.get/post/put/delete`, `response.json()`, the raising itself in `raise_for_status()` and `print(response)`. Transport failures are not modelled either. A response is a status code plus an already decoded body.
- List bodies are modelled as sequences of wire objects. A body of any other shape is not modelled, although the list comprehensions would iterate it differently or fail on it.
- Percent-encoding and URL fragments are not modelled. `requests` re-quotes a
  `%` in the URL it sends, and a `#` in a query value starts a fragment that is
  never sent, so the server would not see the text `ParseQuery` reads. The
  create-link round-trip lemmas hold for the split-only reading.
- JSON text is not modelled: `json.dumps` in `to_json` and the matching parse are left out, and `to_json` returns the wire map.
- Record fields hold the scalars `None`, `str`, `int` and `bool` only. Floats, lists and nested objects in a wire object are not modelled.
- Publication ids and the API key are strings in the model. A non-string id, such as an integer `0` (falsy, though its text `"0"` is not empty), is not modelled.
- `__str__` of both records is formatting only and is not modelled.
- `get_base_url` and `get_api_key` return the constant fields `baseUrl` and `apiKey`; they have no members of their own.
- `setup.py` is packaging metadata and is not modelled.
