/**
 * Request descriptions as the RTK Query endpoints in app/api/ return them,
 * and the query strings their URL templates build by splicing values in
 * between '&' and '=' without escaping.
 */
module Query {
  import opened Common
  import opened Js

  datatype HttpMethod = GET | POST | PUT | DELETE

  /**
   * What an endpoint's `query` returns: a bare URL string is a GET without a
   * body; an object names the URL, the method and the body.
   */
  datatype Request<B> = Request(url: string, httpMethod: HttpMethod, body: Option<B>)

  /** A query returning only its URL. */
  function GetRequest<B>(url: string): (r: Request<B>)
    ensures r.url == url && r.httpMethod == GET && r.body == None
  {
    Request(url, GET, None)
  }

  /** `k=v`, spliced as is. */
  function Param(p: (string, string)): string {
    p.0 + "=" + p.1
  }

  /** The parameters joined by '&', in order. */
  function QueryString(params: seq<(string, string)>): (q: string)
    decreases |params|
  {
    if params == [] then ""
    else if |params| == 1 then Param(params[0])
    else Param(params[0]) + "&" + QueryString(params[1..])
  }

  /** `path?k1=v1&k2=v2…`. */
  function WithQuery(path: string, params: seq<(string, string)>): string {
    path + "?" + QueryString(params)
  }

  /** Cutting a string at every `sep`. */
  function Split(s: string, sep: char): (parts: seq<string>)
    ensures |parts| > 0
    decreases |s|
  {
    if sep !in s then [s]
    else
      var i := FirstIndex(s, sep);
      [s[..i]] + Split(s[i + 1..], sep)
  }

  /** Where `c` first occurs in `s`. */
  function FirstIndex(s: string, c: char): (i: nat)
    requires c in s
    ensures i < |s| && s[i] == c && c !in s[..i]
    decreases |s|
  {
    if s[0] == c then 0 else 1 + FirstIndex(s[1..], c)
  }

  /** A parameter read back: the key up to the first '=', the value after it. */
  function ReadParam(s: string): (p: (string, string))
  {
    if '=' in s then
      var i := FirstIndex(s, '=');
      (s[..i], s[i + 1..])
    else (s, "")
  }

  function ReadParams(parts: seq<string>): (ps: seq<(string, string)>)
    ensures |ps| == |parts|
    ensures forall i :: 0 <= i < |parts| ==> ps[i] == ReadParam(parts[i])
  {
    if parts == [] then [] else [ReadParam(parts[0])] + ReadParams(parts[1..])
  }

  /** How a server reads a query string: split on '&', then on the first '='. */
  function ReadQuery(q: string): seq<(string, string)> {
    ReadParams(Split(q, '&'))
  }

  /** Keys free of '&' and '=', values free of '&': the parameters a query string keeps apart. */
  predicate Separable(params: seq<(string, string)>) {
    forall i :: 0 <= i < |params| ==>
      '&' !in params[i].0 && '=' !in params[i].0 && '&' !in params[i].1
  }

  /** `FirstIndex` finds the first occurrence, wherever it is. */
  lemma {:induction false} FirstIndexAt(s: string, c: char, k: nat)
    requires k < |s| && s[k] == c && c !in s[..k]
    ensures FirstIndex(s, c) == k
    decreases k
  {
    if k > 0 {
      assert s[0] == s[..k][0];
      assert s[1..][..k - 1] == s[1..k];
      assert forall j :: 1 <= j < k ==> s[j] == s[..k][j];
      FirstIndexAt(s[1..], c, k - 1);
    }
  }

  /** In `a + [c] + b` with no `c` in `a`, the first `c` is the one between the halves. */
  lemma FirstIndexOfJoin(a: string, c: char, b: string)
    requires c !in a
    ensures FirstIndex(a + [c] + b, c) == |a|
    ensures (a + [c] + b)[..|a|] == a && (a + [c] + b)[|a| + 1..] == b
  {
    var s := a + [c] + b;
    assert s[..|a|] == a;
    FirstIndexAt(s, c, |a|);
  }

  lemma ReadParamOfParam(p: (string, string))
    requires '=' !in p.0
    ensures ReadParam(Param(p)) == p
  {
    FirstIndexOfJoin(p.0, '=', p.1);
    assert Param(p) == p.0 + ['='] + p.1;
  }

  /** A parameter with '&' in neither key nor value spells no '&'. */
  lemma ParamHasNoAmpersand(p: (string, string))
    requires '&' !in p.0 && '&' !in p.1
    ensures '&' !in Param(p)
  {
    assert forall j :: 0 <= j < |Param(p)| ==>
      Param(p)[j] == (if j < |p.0| then p.0[j] else if j == |p.0| then '=' else p.1[j - |p.0| - 1]);
  }

  lemma SplitCons(head: string, sep: char, rest: string)
    requires sep !in head
    ensures Split(head + [sep] + rest, sep) == [head] + Split(rest, sep)
  {
    FirstIndexOfJoin(head, sep, rest);
  }

  lemma {:induction false} SplitJoined(params: seq<(string, string)>)
    requires |params| > 0 && Separable(params)
    ensures |Split(QueryString(params), '&')| == |params|
    ensures forall i :: 0 <= i < |params| ==> Split(QueryString(params), '&')[i] == Param(params[i])
    decreases |params|
  {
    ParamHasNoAmpersand(params[0]);
    if |params| == 1 {
      assert Split(Param(params[0]), '&') == [Param(params[0])];
    } else {
      var rest := params[1..];
      assert Separable(rest) by {
        forall i | 0 <= i < |rest|
          ensures '&' !in rest[i].0 && '=' !in rest[i].0 && '&' !in rest[i].1
        {
          assert rest[i] == params[i + 1];
        }
      }
      SplitJoined(rest);
      SplitCons(Param(params[0]), '&', QueryString(rest));
      assert QueryString(params) == Param(params[0]) + ['&'] + QueryString(rest);
      PartsOfCons(Split(QueryString(params), '&'), Split(QueryString(rest), '&'), params);
    }
  }

  /** Parts made of the first parameter's text and one part per later parameter are one part per parameter. */
  lemma PartsOfCons(parts: seq<string>, later: seq<string>, params: seq<(string, string)>)
    requires |params| > 0 && parts == [Param(params[0])] + later && |later| == |params| - 1
    requires forall i :: 0 <= i < |later| ==> later[i] == Param(params[1..][i])
    ensures |parts| == |params|
    ensures forall i :: 0 <= i < |params| ==> parts[i] == Param(params[i])
  {
    forall i | 0 < i < |params|
      ensures parts[i] == Param(params[i])
    {
      assert parts[i] == later[i - 1] && params[1..][i - 1] == params[i];
    }
  }

  /**
   * The server reads back exactly the parameters the template spliced in,
   * provided no key holds '&' or '=' and no value holds '&'.
   */
  lemma ReadQueryString(params: seq<(string, string)>)
    requires |params| > 0 && Separable(params)
    ensures ReadQuery(QueryString(params)) == params
  {
    SplitJoined(params);
    forall i | 0 <= i < |params|
      ensures ReadQuery(QueryString(params))[i] == params[i]
    {
      ReadParamOfParam(params[i]);
    }
  }

  /**
   * With no escaping, a value holding `&k=w` is indistinguishable from that
   * value cut short followed by a parameter `k=w` of its own.
   */
  lemma SplicedValueInjectsParameter(key: string, u: string, k: string, w: string,
                                     rest: seq<(string, string)>)
    ensures QueryString([(key, u + "&" + k + "=" + w)] + rest)
         == QueryString([(key, u), (k, w)] + rest)
  {
    var lhs := [(key, u + "&" + k + "=" + w)] + rest;
    var rhs := [(key, u), (k, w)] + rest;
    assert lhs[1..] == rest && rhs[1..] == [(k, w)] + rest && rhs[2..] == rest;
    if rest == [] {
      assert QueryString(rhs[1..]) == Param((k, w));
    } else {
      assert QueryString(rhs[1..]) == Param((k, w)) + "&" + QueryString(rest);
    }
  }
  /** Appending one parameter to a non-empty list appends `&k=v` to its query string. */
  lemma {:induction false} QueryStringSnoc(params: seq<(string, string)>, p: (string, string))
    requires |params| > 0
    ensures QueryString(params + [p]) == QueryString(params) + "&" + Param(p)
    decreases |params|
  {
    var ps := params + [p];
    if |params| == 1 {
      assert ps[1..] == [p];
    } else {
      assert ps[1..] == params[1..] + [p];
      QueryStringSnoc(params[1..], p);
    }
  }

  /** `if (v) url += `&k=${v}``: the parameter when its value is truthy, else nothing. */
  function Optional(key: string, v: Option<string>): (ps: seq<(string, string)>)
    ensures Given(v) ==> ps == [(key, v.value)]
    ensures !Given(v) <==> ps == []
  {
    if Given(v) then [(key, v.value)] else []
  }

  /** A printed integer holds neither '&' nor '='. */
  lemma IntToStringSeparable(n: int)
    ensures '&' !in IntToString(n) && '=' !in IntToString(n)
    ensures '/' !in IntToString(n) && '?' !in IntToString(n)
  {
    var s := IntToString(n);
    if n < 0 {
      assert forall i :: 1 <= i < |s| ==> s[i] == s[1..][i - 1];
    }
  }

  /** The default page and size print as "0" and "10". */
  lemma DefaultPageText()
    ensures IntToString(0) == "0" && IntToString(10) == "10"
  {
    assert NatToString(10) == NatToString(1) + [DigitChar(0)];
  }
  /** A URL read back: the path before the first '?' and the parameters after it. */
  function ReadUrl(url: string): (string, seq<(string, string)>) {
    if '?' in url then
      var i := FirstIndex(url, '?');
      (url[..i], ReadQuery(url[i + 1..]))
    else (url, [])
  }

  /** The value of the first parameter named `key`, as a server's lookup returns it. */
  function Lookup(params: seq<(string, string)>, key: string): (v: Option<string>)
    ensures v.Some? ==> (key, v.value) in params
  {
    if params == [] then None
    else if params[0].0 == key then Some(params[0].1)
    else Lookup(params[1..], key)
  }

  /** A URL built from a path without '?' reads back as that path and those parameters. */
  lemma ReadWithQuery(path: string, params: seq<(string, string)>)
    requires '?' !in path && |params| > 0 && Separable(params)
    ensures ReadUrl(WithQuery(path, params)) == (path, params)
  {
    FirstIndexOfJoin(path, '?', QueryString(params));
    assert WithQuery(path, params) == path + ['?'] + QueryString(params);
    ReadQueryString(params);
  }
  /** The query string of one, two or three parameters, written out. */
  lemma QueryStringUpToThree(a: (string, string), b: (string, string), c: (string, string))
    ensures QueryString([a]) == Param(a)
    ensures QueryString([a, b]) == Param(a) + "&" + Param(b)
    ensures QueryString([a, b, c]) == Param(a) + "&" + Param(b) + "&" + Param(c)
  {
    QueryStringSnoc([a], b);
    assert [a] + [b] == [a, b];
    QueryStringSnoc([a, b], c);
    assert [a, b] + [c] == [a, b, c];
  }

  /** The query string of four parameters, written out. */
  lemma QueryStringFour(a: (string, string), b: (string, string), c: (string, string), d: (string, string))
    ensures QueryString([a, b, c, d]) == Param(a) + "&" + Param(b) + "&" + Param(c) + "&" + Param(d)
  {
    QueryStringUpToThree(a, b, c);
    QueryStringSnoc([a, b, c], d);
    assert [a, b, c] + [d] == [a, b, c, d];
  }

  /** A template piece `sep + k + "="` followed by a value appends `sep` and that parameter. */
  lemma AppendParam(acc: string, sep: string, piece: string, k: string, v: string)
    requires piece == sep + k + "="
    ensures acc + piece + v == acc + sep + Param((k, v))
  {
    assert sep + Param((k, v)) == piece + v;
  }

  /** The url of three parameters, its query string spelled out piece by piece. */
  lemma WithQueryThree(path: string, a: (string, string), b: (string, string), c: (string, string))
    ensures WithQuery(path, [a, b, c]) == path + "?" + Param(a) + "&" + Param(b) + "&" + Param(c)
  {
    QueryStringUpToThree(a, b, c);
  }

  /** The url of four parameters, its query string spelled out piece by piece. */
  lemma WithQueryFour(path: string, a: (string, string), b: (string, string), c: (string, string), d: (string, string))
    ensures WithQuery(path, [a, b, c, d]) == path + "?" + Param(a) + "&" + Param(b) + "&" + Param(c) + "&" + Param(d)
  {
    QueryStringFour(a, b, c, d);
  }

  /** The first `key` of a concatenation is the first one of its first part, if any. */
  lemma {:induction false} LookupAppend(xs: seq<(string, string)>, ys: seq<(string, string)>, key: string)
    ensures Lookup(xs + ys, key) == if Lookup(xs, key).Some? then Lookup(xs, key) else Lookup(ys, key)
    decreases |xs|
  {
    if xs != [] {
      assert (xs + ys)[1..] == xs[1..] + ys;
      LookupAppend(xs[1..], ys, key);
    } else {
      assert xs + ys == ys;
    }
  }
  /** The first `key` among four concatenated parts is the first one of the earliest part holding it. */
  lemma LookupFour(a: seq<(string, string)>, b: seq<(string, string)>, c: seq<(string, string)>,
                   d: seq<(string, string)>, key: string)
    ensures Lookup(a + b + c + d, key)
         == if Lookup(a, key).Some? then Lookup(a, key)
            else if Lookup(b, key).Some? then Lookup(b, key)
            else if Lookup(c, key).Some? then Lookup(c, key)
            else Lookup(d, key)
  {
    LookupAppend(a + b + c, d, key);
    LookupAppend(a + b, c, key);
    LookupAppend(a, b, key);
  }

  /** An optional value that, when truthy, holds no '&'. */
  predicate NoAmpersand(v: Option<string>) {
    Given(v) ==> '&' !in v.value
  }

  lemma SeparableAppend(a: seq<(string, string)>, b: seq<(string, string)>)
    requires Separable(a) && Separable(b)
    ensures Separable(a + b)
  {
    forall i | 0 <= i < |a + b|
      ensures '&' !in (a + b)[i].0 && '=' !in (a + b)[i].0 && '&' !in (a + b)[i].1
    {
      if i >= |a| {
        assert (a + b)[i] == b[i - |a|];
      }
    }
  }

  lemma OptionalSeparable(key: string, v: Option<string>)
    requires '&' !in key && '=' !in key && NoAmpersand(v)
    ensures Separable(Optional(key, v))
  {
  }

  /** Looking a key up among the optional parameter finds its value exactly when it was given. */
  lemma LookupOptional(key: string, v: Option<string>, k: string)
    ensures Lookup(Optional(key, v), k) == if k == key && Given(v) then Some(v.value) else None
  {
  }
  /** The parameters the search endpoints share: search, page, size (defaults '', 0, 10). */
  function PageParams(search: Option<string>, page: Option<int>, size: Option<int>): seq<(string, string)> {
    [("search", search.GetOr("")), ("page", IntToString(page.GetOr(0))), ("size", IntToString(size.GetOr(10)))]
  }

  /** The term, page and size read back; no other key is among them. */
  lemma PageParamValues(search: Option<string>, page: Option<int>, size: Option<int>, k: string)
    ensures var ps := PageParams(search, page, size);
      Lookup(ps, k) == if k == "search" then Some(search.GetOr(""))
                       else if k == "page" then Some(IntToString(page.GetOr(0)))
                       else if k == "size" then Some(IntToString(size.GetOr(10)))
                       else None
  {
    var ps := PageParams(search, page, size);
    var p1, p2 := ps[1..], ps[2..];
    assert p1 == [ps[1], ps[2]] && p1[1..] == p2 && p2 == [ps[2]] && p2[1..] == [];
    assert Lookup(ps, k) == if k == "search" then Some(ps[0].1) else Lookup(p1, k);
    assert Lookup(p1, k) == if k == "page" then Some(ps[1].1) else Lookup(p2, k);
    assert Lookup(p2, k) == if k == "size" then Some(ps[2].1) else Lookup([], k);
  }

  /** `${path}?search=${s}&page=${p}&size=${z}` is the query string of those three parameters. */
  lemma PageTemplate(path: string, s: string, p: string, z: string)
    ensures path + "?search=" + s + "&page=" + p + "&size=" + z
         == WithQuery(path, [("search", s), ("page", p), ("size", z)])
  {
    var x1 := path + "?" + Param(("search", s));
    var x2 := x1 + "&" + Param(("page", p));
    AppendParam(path, "?", "?search=", "search", s);
    AppendParam(x1, "&", "&page=", "page", p);
    AppendParam(x2, "&", "&size=", "size", z);
    WithQueryThree(path, ("search", s), ("page", p), ("size", z));
  }

  /** With no '&' in the search term, the server reads back the path and the three page parameters. */
  lemma PageReadsBack(path: string, search: Option<string>, page: Option<int>, size: Option<int>)
    requires '?' !in path
    ensures '&' !in search.GetOr("") ==>
      ReadUrl(WithQuery(path, PageParams(search, page, size))) == (path, PageParams(search, page, size))
  {
    if '&' !in search.GetOr("") {
      PageParamsSeparable(search, page, size);
      ReadWithQuery(path, PageParams(search, page, size));
    }
  }

  /** With no '&' in the search term, the three page parameters stay apart. */
  lemma PageParamsSeparable(search: Option<string>, page: Option<int>, size: Option<int>)
    requires '&' !in search.GetOr("")
    ensures Separable(PageParams(search, page, size))
  {
    IntToStringSeparable(page.GetOr(0));
    IntToStringSeparable(size.GetOr(10));
  }

  /** `${collection}/${id}`: the item's URL, from which the id parses back. */
  function ItemUrl(collection: string, id: int): (url: string)
    ensures |url| > |collection| + 1
    ensures url[..|collection| + 1] == collection + "/"
    ensures ParseInt(url[|collection| + 1..]) == Some(id)
  {
    var url := collection + "/" + IntToString(id);
    assert url[..|collection| + 1] == collection + "/";
    assert url[|collection| + 1..] == IntToString(id);
    ParseIntOfIntToString(id);
    url
  }

  /** Different ids of one collection give different URLs. */
  lemma ItemUrlInjective(collection: string, a: int, b: int)
    requires ItemUrl(collection, a) == ItemUrl(collection, b)
    ensures a == b
  {
  }

  /** A GET on a fixed path: the server reads no parameters from it. */
  function FixedGet<B>(path: string): (r: Request<B>)
    requires '?' !in path
    ensures r.url == path && r.httpMethod == GET && r.body == None
    ensures ReadUrl(r.url) == (path, [])
  {
    GetRequest(path)
  }

  /** The parts joined by `sep`: a path from its segments. */
  function Join(parts: seq<string>, sep: char): string
    decreases |parts|
  {
    if parts == [] then ""
    else if |parts| == 1 then parts[0]
    else parts[0] + [sep] + Join(parts[1..], sep)
  }

  /** Cutting at `sep` undoes joining by it, when no part holds `sep`. */
  lemma {:induction false} SplitJoin(parts: seq<string>, sep: char)
    requires |parts| > 0
    requires forall i :: 0 <= i < |parts| ==> sep !in parts[i]
    ensures Split(Join(parts, sep), sep) == parts
    decreases |parts|
  {
    if |parts| > 1 {
      NoSeparatorInTail(parts, sep);
      SplitJoin(parts[1..], sep);
      SplitJoinCons(parts, sep);
    } else {
      assert Join(parts, sep) == parts[0];
      assert sep !in parts[0];
    }
  }

  /** The parts after the first hold no separator either. */
  lemma NoSeparatorInTail(parts: seq<string>, sep: char)
    requires |parts| > 1
    requires forall i :: 0 <= i < |parts| ==> sep !in parts[i]
    ensures forall i :: 0 <= i < |parts[1..]| ==> sep !in parts[1..][i]
  {
    forall i | 0 <= i < |parts[1..]|
      ensures sep !in parts[1..][i]
    {
      assert parts[1..][i] == parts[i + 1];
    }
  }

  /** Splitting a join undoes it once it undoes the join of the parts after the first. */
  lemma SplitJoinCons(parts: seq<string>, sep: char)
    requires |parts| > 1 && sep !in parts[0]
    requires Split(Join(parts[1..], sep), sep) == parts[1..]
    ensures Split(Join(parts, sep), sep) == parts
  {
    SplitCons(parts[0], sep, Join(parts[1..], sep));
    assert parts == [parts[0]] + parts[1..];
  }

  /** Joining two non-empty lists of parts puts one `sep` between their joins. */
  lemma {:induction false} JoinAppend(a: seq<string>, b: seq<string>, sep: char)
    requires |a| > 0 && |b| > 0
    ensures Join(a + b, sep) == Join(a, sep) + [sep] + Join(b, sep)
    decreases |a|
  {
    if |a| == 1 {
      assert (a + b)[1..] == b;
    } else {
      assert (a + b)[1..] == a[1..] + b;
      JoinAppend(a[1..], b, sep);
    }
  }
}
