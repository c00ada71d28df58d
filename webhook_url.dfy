/**
 * MutableURL of celery.task.http: a URL split into its six parts, with the
 * query held as an editable dictionary and re-encoded when the URL is turned
 * back into a string. The URL library (urlparse, parse_qsl, urlencode) is a
 * parameter: nothing is assumed about how it parses or orders a query.
 */
module WebhookUrl {

  /** The 6-tuple `urlparse` returns. */
  datatype UrlParts = UrlParts(scheme: string, netloc: string, path: string,
                               params: string, query: string, fragment: string)

  /** A query dictionary. */
  type Query = map<string, string>

  /** The library calls the URL code relies on. */
  datatype UrlLib = UrlLib(
    urlparse: string -> UrlParts,
    parseQsl: string -> seq<(string, string)>,
    urlencode: Query -> string)

  /** `maybe_utf8`: the encoding step changes no text in this model. */
  function MaybeUtf8(value: string): string
  {
    value
  }

  /** `utf8dict(d.items())`: a new dictionary with every value passed through MaybeUtf8. */
  function Utf8Dict(d: Query): (r: Query)
    ensures r == d
  {
    map k | k in d :: MaybeUtf8(d[k])
  }

  /** `dict(pairs)`: when a key repeats, the last pair for it wins. */
  function DictOf(pairs: seq<(string, string)>): (r: Query)
    ensures forall i :: 0 <= i < |pairs| ==> pairs[i].0 in r
    ensures forall k :: k in r ==> exists i :: 0 <= i < |pairs| && pairs[i] == (k, r[k])
  {
    if pairs == [] then map[]
    else DictOf(pairs[..|pairs| - 1])[pairs[|pairs| - 1].0 := pairs[|pairs| - 1].1]
  }

  /** The keys of `dict(pairs)` are exactly the keys occurring in pairs. */
  lemma DictOfKeys(pairs: seq<(string, string)>)
    ensures DictOf(pairs).Keys == set i | 0 <= i < |pairs| :: pairs[i].0
  {
    var s := set i | 0 <= i < |pairs| :: pairs[i].0;
    forall k | k in DictOf(pairs) ensures k in s {
      var i :| 0 <= i < |pairs| && pairs[i] == (k, DictOf(pairs)[k]);
    }
  }

  /** The value `dict(pairs)` keeps for a key is the one of its last occurrence. */
  lemma {:induction false} DictOfLastWins(pairs: seq<(string, string)>, i: nat)
    requires i < |pairs|
    requires forall j :: i < j < |pairs| ==> pairs[j].0 != pairs[i].0
    ensures pairs[i].0 in DictOf(pairs) && DictOf(pairs)[pairs[i].0] == pairs[i].1
  {
    if i < |pairs| - 1 {
      var init := pairs[..|pairs| - 1];
      assert init[i] == pairs[i];
      forall j | i < j < |init| ensures init[j].0 != init[i].0 {
        assert init[j] == pairs[j];
      }
      DictOfLastWins(init, i);
    }
  }

  /** `'<sep>%s' % s if s else ''`. */
  function Section(sep: string, s: string): string
  {
    if s == "" then "" else sep + s
  }

  /** The component list `__str__` builds, before empty strings are filtered out. */
  function Components(parts: UrlParts, encodedQuery: string): seq<string>
  {
    [parts.scheme + "://", parts.netloc, if parts.path == "" then "/" else parts.path,
     Section(";", parts.params), Section("?", encodedQuery), Section("#", parts.fragment)]
  }

  /** `filter(None, xs)`: the non-empty strings of xs, in order. */
  function NonEmpty(xs: seq<string>): (r: seq<string>)
    ensures forall i :: 0 <= i < |r| ==> r[i] != ""
    ensures |r| <= |xs|
  {
    if xs == [] then []
    else if xs[0] == "" then NonEmpty(xs[1..])
    else [xs[0]] + NonEmpty(xs[1..])
  }

  /** `''.join(xs)`. */
  function Join(xs: seq<string>): string
  {
    if xs == [] then "" else xs[0] + Join(xs[1..])
  }

  /** Dropping empty strings does not change what joining gives. */
  lemma {:induction false} JoinNonEmpty(xs: seq<string>)
    ensures Join(NonEmpty(xs)) == Join(xs)
  {
    if xs != [] {
      JoinNonEmpty(xs[1..]);
      if xs[0] != "" {
        assert ([xs[0]] + NonEmpty(xs[1..]))[1..] == NonEmpty(xs[1..]);
      }
    }
  }

  /** `MutableURL.__str__` on given parts and an already encoded query. */
  function Render(parts: UrlParts, encodedQuery: string): (r: string)
    ensures |parts.scheme| + 3 <= |r| && r[..|parts.scheme| + 3] == parts.scheme + "://"
  {
    var cs := Components(parts, encodedQuery);
    JoinNonEmpty(cs);
    JoinSix(cs[0], cs[1], cs[2], cs[3], cs[4], cs[5]);
    Join(NonEmpty(cs))
  }

  /**
   * The rendered URL: scheme and "://", the netloc, the path or "/" when it is
   * empty, then ";params", "?query" and "#fragment", each only when that part
   * is non-empty, in that order.
   */
  lemma RenderLayout(parts: UrlParts, encodedQuery: string)
    ensures Render(parts, encodedQuery) ==
      parts.scheme + "://" + parts.netloc
      + (if parts.path == "" then "/" else parts.path)
      + (if parts.params == "" then "" else ";" + parts.params)
      + (if encodedQuery == "" then "" else "?" + encodedQuery)
      + (if parts.fragment == "" then "" else "#" + parts.fragment)
  {
    var cs := Components(parts, encodedQuery);
    JoinNonEmpty(cs);
    JoinSix(cs[0], cs[1], cs[2], cs[3], cs[4], cs[5]);
  }

  /** Joining six strings concatenates them in order. */
  lemma JoinSix(a: string, b: string, c: string, d: string, e: string, f: string)
    ensures Join([a, b, c, d, e, f]) == a + b + c + d + e + f
  {
    var cs := [a, b, c, d, e, f];
    assert cs[1..] == [b, c, d, e, f];
    assert cs[1..][1..] == [c, d, e, f];
    assert cs[1..][1..][1..] == [d, e, f];
    assert cs[1..][1..][1..][1..] == [e, f];
    assert cs[1..][1..][1..][1..][1..] == [f];
    assert Join([f]) == f;
    assert Join([e, f]) == e + f;
    assert Join([d, e, f]) == d + e + f;
    assert Join([c, d, e, f]) == c + d + e + f;
    assert Join([b, c, d, e, f]) == b + c + d + e + f;
  }

  /** The query dictionary `MutableURL.__init__` builds for a URL. */
  function ParsedQuery(lib: UrlLib, url: string): Query
  {
    DictOf(lib.parseQsl(lib.urlparse(url).query))
  }

  class MutableUrl {
    const parts: UrlParts
    var query: Query

    /** `MutableURL(url)`: split the URL and turn its query string into a dictionary. */
    constructor (url: string, lib: UrlLib)
      ensures parts == lib.urlparse(url)
      ensures query == DictOf(lib.parseQsl(parts.query))
    {
      parts := lib.urlparse(url);
      query := DictOf(lib.parseQsl(lib.urlparse(url).query));
    }

    /** `url.query.update(extra)`: keys of extra are added or overwritten, the others kept. */
    method UpdateQuery(extra: Query)
      modifies this`query
      ensures query == old(query) + extra
      ensures forall k :: k in extra ==> query[k] == extra[k]
      ensures forall k :: k in old(query) && k !in extra ==> query[k] == old(query)[k]
    {
      query := query + extra;
    }

    /** `str(url)`: the parts around the re-encoded query dictionary. */
    method ToString(lib: UrlLib) returns (s: string)
      ensures s == Render(parts, lib.urlencode(query))
      ensures s ==
        parts.scheme + "://" + parts.netloc
        + (if parts.path == "" then "/" else parts.path)
        + (if parts.params == "" then "" else ";" + parts.params)
        + (if lib.urlencode(query) == "" then "" else "?" + lib.urlencode(query))
        + (if parts.fragment == "" then "" else "#" + parts.fragment)
    {
      var encoded := lib.urlencode(Utf8Dict(query));
      s := Join(NonEmpty(Components(parts, encoded)));
      RenderLayout(parts, encoded);
    }
  }
}
