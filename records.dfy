/**
 * The two domain records, `CuratedLink` and `CuratedCategory`, and their
 * mapping to and from a decoded wire object. Every field holds whatever
 * scalar the wire object carried (or `None`), exactly as the Python
 * constructors store their arguments unchecked.
 */
module Records {
  import opened Json

  /** `CuratedLink(url, title=None, description=None, image=None, category=None, id=None)`. */
  datatype Link = Link(
    url: JVal,
    title: JVal := Null,
    description: JVal := Null,
    image: JVal := Null,
    category: JVal := Null,
    id: JVal := Null)

  /** `CuratedCategory(code=None, name=None, sponsored=False, limit=None)`. */
  datatype Category = Category(
    code: JVal := Null,
    name: JVal := Null,
    sponsored: JVal := Bool(false),
    limit: JVal := Null)

  /** The keys `CuratedLink.to_json` emits. */
  const LinkKeys: set<string> := {"url", "title", "description", "image", "category", "id"}

  /** The keys `CuratedCategory.to_json` emits (and `from_json` reads). */
  const CategoryKeys: set<string> := {"code", "name", "sponsored", "limit"}

  /** `CuratedLink.from_json`: every field from its own key, except `image` from `image_url`. */
  function LinkFromJson(d: Object): Link {
    Link(
      url := Get(d, "url"),
      title := Get(d, "title"),
      description := Get(d, "description"),
      image := Get(d, "image_url"),
      category := Get(d, "category"),
      id := Get(d, "id"))
  }

  /** `CuratedLink.to_json`, before the map is serialised to text. */
  function LinkToJson(l: Link): (d: Object)
    ensures d.Keys == LinkKeys
    ensures "image_url" !in d
  {
    map["url" := l.url, "title" := l.title, "description" := l.description,
        "image" := l.image, "category" := l.category, "id" := l.id]
  }

  /** `CuratedCategory.from_json`: `sponsored` is `False` when its key is absent. */
  function CategoryFromJson(d: Object): Category {
    Category(
      code := Get(d, "code"),
      name := Get(d, "name"),
      sponsored := GetOr(d, "sponsored", Bool(false)),
      limit := Get(d, "limit"))
  }

  /** `CuratedCategory.to_json`, before the map is serialised to text. */
  function CategoryToJson(c: Category): (d: Object)
    ensures d.Keys == CategoryKeys
  {
    map["code" := c.code, "name" := c.name, "sponsored" := c.sponsored, "limit" := c.limit]
  }

  /** The list comprehension `[CuratedLink.from_json(x) for x in data]`. */
  function DecodeLinks(items: seq<Object>): (links: seq<Link>)
    ensures |links| == |items|
    ensures forall k :: 0 <= k < |items| ==> links[k] == LinkFromJson(items[k])
  {
    if items == [] then [] else [LinkFromJson(items[0])] + DecodeLinks(items[1..])
  }

  /** The list comprehension `[CuratedCategory.from_json(x) for x in data]`. */
  function DecodeCategories(items: seq<Object>): (categories: seq<Category>)
    ensures |categories| == |items|
    ensures forall k :: 0 <= k < |items| ==> categories[k] == CategoryFromJson(items[k])
  {
    if items == [] then [] else [CategoryFromJson(items[0])] + DecodeCategories(items[1..])
  }

  // ---------------------------------------------------------------- links

  /** Decoding reads `image` from `image_url`; every other field from its own key, `None` when absent. */
  lemma LinkFromJsonFields(d: Object)
    ensures var l := LinkFromJson(d);
      && l.url == Get(d, "url") && l.title == Get(d, "title")
      && l.description == Get(d, "description") && l.image == Get(d, "image_url")
      && l.category == Get(d, "category") && l.id == Get(d, "id")
    ensures "image_url" in d ==> LinkFromJson(d).image == d["image_url"]
    ensures "image_url" !in d ==> LinkFromJson(d).image == Null
  {
  }

  /** Decoding ignores a wire key named `image`, whatever it holds. */
  lemma LinkFromJsonIgnoresImageKey(d: Object, v: JVal)
    ensures LinkFromJson(d["image" := v]) == LinkFromJson(d - {"image"})
  {
  }

  /**
   * Encoding then decoding keeps url, title, description, category and id,
   * but drops the image: the encoder writes `image` and the decoder reads `image_url`.
   */
  lemma LinkRoundTrip(l: Link)
    ensures LinkFromJson(LinkToJson(l)) == l.(image := Null)
    ensures LinkFromJson(LinkToJson(l)) == l <==> l.image == Null
  {
  }

  /**
   * Decoding then encoding a wire object with exactly the decoder's keys
   * renames `image_url` to `image` and keeps every other entry.
   */
  lemma LinkJsonRoundTrip(d: Object)
    requires d.Keys == {"url", "title", "description", "image_url", "category", "id"}
    ensures LinkToJson(LinkFromJson(d)) == (d - {"image_url"})["image" := d["image_url"]]
  {
  }

  // ----------------------------------------------------------- categories

  /** A missing `sponsored` key decodes to `False`, never `None`; a present one is kept as is. */
  lemma CategorySponsoredDefault(d: Object)
    ensures "sponsored" !in d ==> CategoryFromJson(d).sponsored == Bool(false)
    ensures "sponsored" in d ==> CategoryFromJson(d).sponsored == d["sponsored"]
    ensures CategoryFromJson(map[]) == Category()
  {
  }

  /** Encoding then decoding a category gives it back, all four fields. */
  lemma CategoryRoundTrip(c: Category)
    ensures CategoryFromJson(CategoryToJson(c)) == c
  {
  }

  /** The wire object `d` with the decoder's defaults filled in for absent keys. */
  function CategoryDefaults(d: Object): Object {
    map k | k in CategoryKeys :: if k in d then d[k] else if k == "sponsored" then Bool(false) else Null
  }

  /**
   * Decoding then encoding a wire object that has no other keys than the
   * category's gives it back with the defaults filled in; when it already has
   * all four keys it comes back unchanged.
   */
  lemma CategoryJsonRoundTrip(d: Object)
    requires d.Keys <= CategoryKeys
    ensures CategoryToJson(CategoryFromJson(d)) == CategoryDefaults(d)
    ensures d.Keys == CategoryKeys ==> CategoryToJson(CategoryFromJson(d)) == d
  {
  }

  /** Every category decoded from a list has `sponsored` set: `False` where the key was absent. */
  lemma DecodedCategoriesSponsored(items: seq<Object>)
    ensures forall k :: 0 <= k < |items| && "sponsored" !in items[k] ==>
      DecodeCategories(items)[k].sponsored == Bool(false)
  {
  }
}
