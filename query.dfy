/**
 * The create-link query string and a split-only reading of it: split on `&`
 * into pairs, each pair split at its first `=`. Percent-decoding and the
 * `#` that starts a URL fragment are not part of this reading.
 */
module Query {
  import opened Wrappers
  import opened Text

  /** `"?url=" + url + "&title=" + title + "&description='" + description + "'&image=" + image + "&category=" + category`. */
  function QueryText(url: string, title: string, description: string, image: string, category: string): string {
    "?url=" + url + "&title=" + title + "&description='" + description + "'&image=" + image
      + "&category=" + category
  }

  /** One `key=value` pair: the key ends at the first `=`. */
  function ParsePair(p: string): Option<(string, string)> {
    var kv := Split(p, '=');
    if |kv| >= 2 then Some((kv[0], Join(kv[1..], '='))) else None
  }

  function ParsePairs(ps: seq<string>): Option<seq<(string, string)>> {
    if ps == [] then Some([])
    else match (ParsePair(ps[0]), ParsePairs(ps[1..]))
      case (Some(kv), Some(rest)) => Some([kv] + rest)
      case _ => None
  }

  /** Reads a query string `?k1=v1&k2=v2...` back into its pairs. */
  function ParseQuery(q: string): Option<seq<(string, string)>> {
    if |q| >= 1 && q[0] == '?' then ParsePairs(Split(q[1..], '&')) else None
  }

  /** A pair whose key has no `=` reads back as that key and the whole value. */
  lemma {:induction false} ParsePairOf(key: string, value: string)
    requires '=' !in key
    ensures ParsePair(key + "=" + value) == Some((key, value))
  {
    SplitAtFirstSep(key, '=', value);
    JoinSplit(value, '=');
  }

  lemma {:induction false} JoinFive(p0: string, p1: string, p2: string, p3: string, p4: string, sep: char)
    ensures Join([p0, p1, p2, p3, p4], sep) == p0 + [sep] + (p1 + [sep] + (p2 + [sep] + (p3 + [sep] + p4)))
  {
    assert [p3, p4][1..] == [p4];
    assert Join([p3, p4], sep) == p3 + [sep] + Join([p4], sep);
    assert [p2, p3, p4][1..] == [p3, p4];
    assert Join([p2, p3, p4], sep) == p2 + [sep] + Join([p3, p4], sep);
    assert [p1, p2, p3, p4][1..] == [p2, p3, p4];
    assert Join([p1, p2, p3, p4], sep) == p1 + [sep] + Join([p2, p3, p4], sep);
    assert [p0, p1, p2, p3, p4][1..] == [p1, p2, p3, p4];
  }

  lemma Assoc(a: string, b: string, c: string)
    ensures a + b + c == a + (b + c)
  {
  }

  lemma Regroup(h: string, p: string, v: string)
    ensures h + p + "&" + v == h + (p + "&" + v)
  {
    Assoc(h + p, "&", v);
    Assoc(h, p, "&" + v);
    Assoc(p, "&", v);
  }

  /** The query text regrouped pair by pair. */
  lemma {:induction false} QueryTextNested(u: string, t: string, d: string, i: string, c: string)
    ensures QueryText(u, t, d, i, c) == "?" + (("url=" + u) + "&" + (("title=" + t) + "&"
      + (("description=" + ("'" + d + "'")) + "&" + (("image=" + i) + "&" + ("category=" + c)))))
  {
    var p0, p1, p2, p3, p4 := "url=" + u, "title=" + t, "description=" + ("'" + d + "'"), "image=" + i, "category=" + c;
    // the left-associated concatenation, one pair at a time
    var h1 := "?" + p0 + "&";
    var h2 := h1 + p1 + "&";
    var h3 := h2 + p2 + "&";
    var h4 := h3 + p3 + "&";
    var q1 := "?url=" + u + "&title=";
    assert q1 == h1 + "title=" by {
      Assoc("?", "url=", u);
      Assoc("?" + p0, "&", "title=");
    }
    var q2 := q1 + t + "&description='";
    assert q2 == h2 + "description='" by {
      Assoc(h1, "title=", t);
      Assoc(h1 + p1, "&", "description='");
    }
    var q3 := q2 + d + "'&image=";
    assert q3 == h3 + "image=" by {
      Assoc(h2, "description='", d);
      Assoc(h2, "description=", "'");
      Assoc(h2 + "description=", "'", d);
      Assoc(h2 + "description=" + ("'" + d), "'", "&image=");
      Assoc(h2, "description=", "'" + d);
      Assoc(h2, "description=" + ("'" + d), "'");
      Assoc("description=", "'" + d, "'");
      Assoc(h2 + p2, "&", "image=");
    }
    var q4 := q3 + i + "&category=";
    assert q4 == h4 + "category=" by {
      Assoc(h3, "image=", i);
      Assoc(h3 + p3, "&", "category=");
    }
    assert QueryText(u, t, d, i, c) == h4 + p4 by {
      Assoc(h4, "category=", c);
    }
    Regroup(h3, p3, p4);
    Regroup(h2, p2, p3 + "&" + p4);
    Regroup(h1, p1, p2 + "&" + (p3 + "&" + p4));
    Regroup("?", p0, p1 + "&" + (p2 + "&" + (p3 + "&" + p4)));
  }

  /** The `key=value` texts of a sequence of pairs. */
  function PairTexts(kvs: seq<(string, string)>): seq<string> {
    seq(|kvs|, k requires 0 <= k < |kvs| => kvs[k].0 + "=" + kvs[k].1)
  }

  /** Pairs whose keys hold no `=` read back as themselves. */
  lemma {:induction false} ParsePairsOfPairTexts(kvs: seq<(string, string)>)
    requires forall k :: 0 <= k < |kvs| ==> '=' !in kvs[k].0
    ensures ParsePairs(PairTexts(kvs)) == Some(kvs)
  {
    if kvs != [] {
      assert PairTexts(kvs)[1..] == PairTexts(kvs[1..]);
      ParsePairsOfPairTexts(kvs[1..]);
      ParsePairOf(kvs[0].0, kvs[0].1);
      assert [kvs[0]] + kvs[1..] == kvs;
    }
  }

  /** The five pairs the create-link query carries, in order. */
  function QueryPairs(u: string, t: string, d: string, i: string, c: string): seq<(string, string)> {
    [("url", u), ("title", t), ("description", "'" + d + "'"), ("image", i), ("category", c)]
  }

  /** The query text is `?` followed by the five `key=value` texts joined with `&`. */
  lemma {:induction false} QueryTextAsJoin(u: string, t: string, d: string, i: string, c: string)
    ensures |PairTexts(QueryPairs(u, t, d, i, c))| == 5
    ensures QueryText(u, t, d, i, c) == "?" + Join(PairTexts(QueryPairs(u, t, d, i, c)), '&')
  {
    var parts := PairTexts(QueryPairs(u, t, d, i, c));
    var p0, p1, p2, p3, p4 := "url=" + u, "title=" + t, "description=" + ("'" + d + "'"), "image=" + i, "category=" + c;
    assert parts == [p0, p1, p2, p3, p4] by {
      assert parts[0] == p0 by { Assoc("url", "=", u); }
      assert parts[1] == p1 by { Assoc("title", "=", t); }
      assert parts[2] == p2 by { Assoc("description", "=", "'" + d + "'"); }
      assert parts[3] == p3 by { Assoc("image", "=", i); }
      assert parts[4] == p4 by { Assoc("category", "=", c); }
    }
    QueryTextNested(u, t, d, i, c);
    JoinFive(p0, p1, p2, p3, p4, '&');
  }

  /**
   * When no value holds `&`, a split-only reading of the query gives back its
   * five parameters in order, the description still wrapped in the quotes the
   * client adds.
   */
  lemma {:induction false} QueryTextRoundTrip(u: string, t: string, d: string, i: string, c: string)
    requires '&' !in u && '&' !in t && '&' !in d && '&' !in i && '&' !in c
    ensures ParseQuery(QueryText(u, t, d, i, c)) == Some(QueryPairs(u, t, d, i, c))
  {
    var kvs := QueryPairs(u, t, d, i, c);
    var parts := PairTexts(kvs);
    QueryTextAsJoin(u, t, d, i, c);
    var q := QueryText(u, t, d, i, c);
    assert q[1..] == Join(parts, '&');
    assert '&' !in "'" + d + "'";
    forall k | 0 <= k < |parts| ensures '&' !in parts[k] {
    }
    SplitJoin(parts, '&');
    ParsePairsOfPairTexts(kvs);
  }
}
