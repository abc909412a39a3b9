/** URL helpers. A URL is held already parsed, as origin, path, query pairs and fragment;
    `Href` writes it back out. `normalizeUrl` rewrites only the path; `buildUrl` sets query
    parameters one at a time on a URL resolved from the base and the path. */
module RouteUtils {
  import opened Wrappers

  datatype Url = Url(origin: string, pathname: string, query: seq<(string, string)>, fragment: string)

  function Join(q: seq<(string, string)>): string
    decreases |q|
  {
    if q == [] then ""
    else if |q| == 1 then q[0].0 + "=" + q[0].1
    else q[0].0 + "=" + q[0].1 + "&" + Join(q[1..])
  }

  /** An empty query list is written without a `?`. */
  function Href(u: Url): string {
    u.origin + u.pathname + (if u.query == [] then "" else "?" + Join(u.query)) + u.fragment
  }

  predicate NoDoubleSlash(s: string) {
    forall i :: 0 <= i < |s| - 1 ==> !(s[i] == '/' && s[i + 1] == '/')
  }

  /** The path with every '/' taken out. */
  function Unslashed(s: string): string
    decreases |s|
  {
    if s == [] then [] else (if s[0] == '/' then [] else [s[0]]) + Unslashed(s[1..])
  }

  /** Every run of two or more '/' becomes a single '/'. */
  function Collapse(s: string): (r: string)
    ensures NoDoubleSlash(r)
    ensures |s| > 0 ==> |r| > 0 && r[0] == s[0]
    ensures |r| <= |s|
    decreases |s|
  {
    if |s| < 2 then s
    else if s[0] == '/' && s[1] == '/' then Collapse(s[1..])
    else [s[0]] + Collapse(s[1..])
  }

  /** A path with no doubled '/' is left as it is, so collapsing twice changes nothing. */
  lemma {:induction false} CollapseFixed(s: string)
    ensures Collapse(s) == s <==> NoDoubleSlash(s)
    decreases |s|
  {
    if |s| >= 2 && NoDoubleSlash(s) {
      assert NoDoubleSlash(s[1..]) by {
        forall i | 0 <= i < |s[1..]| - 1
          ensures !(s[1..][i] == '/' && s[1..][i + 1] == '/')
        {
          assert s[1..][i] == s[i + 1] && s[1..][i + 1] == s[i + 2];
        }
      }
      CollapseFixed(s[1..]);
      assert s == [s[0]] + s[1..];
    }
  }

  /** Collapsing cannot tell a doubled '/' from a single one, wherever the pair sits. */
  lemma {:induction false} CollapsePair(a: string, b: string)
    ensures Collapse(a + "//" + b) == Collapse(a + "/" + b)
    decreases |a|
  {
    var s, t := a + "//" + b, a + "/" + b;
    if a == [] {
      assert s[1..] == t;
    } else {
      assert s[0] == t[0] == a[0] && s[1] == t[1];
      assert s[1..] == a[1..] + "//" + b;
      assert t[1..] == a[1..] + "/" + b;
      CollapsePair(a[1..], b);
    }
  }

  /** Only '/' characters are removed: the rest of the path is kept, in order. */
  lemma {:induction false} CollapseKeepsText(s: string)
    ensures Unslashed(Collapse(s)) == Unslashed(s)
    decreases |s|
  {
    if |s| >= 2 {
      CollapseKeepsText(s[1..]);
      if !(s[0] == '/' && s[1] == '/') {
        assert ([s[0]] + Collapse(s[1..]))[1..] == Collapse(s[1..]);
      }
    }
  }

  /** The path after both rewrites: runs collapsed, then one trailing '/' dropped unless the
      path is exactly "/". */
  function NormalizePath(p: string): (r: string)
    ensures NoDoubleSlash(r)
    ensures |r| > 0 && r[|r| - 1] == '/' ==> r == "/"
    ensures r == Collapse(p) || r + "/" == Collapse(p)
    ensures Collapse(p) == "/" ==> r == "/"
  {
    var c := Collapse(p);
    if c != "/" && |c| > 0 && c[|c| - 1] == '/' then
      assert |c| >= 2 && c[|c| - 2] != '/';
      c[..|c| - 1]
    else c
  }

  function NormalizeUrl(u: Url): (r: Url)
    ensures r.origin == u.origin && r.query == u.query && r.fragment == u.fragment
  {
    u.(pathname := NormalizePath(u.pathname))
  }

  /** Normalising twice is normalising once. */
  lemma NormalizeIdempotent(u: Url)
    ensures NormalizeUrl(NormalizeUrl(u)) == NormalizeUrl(u)
  {
    CollapseFixed(NormalizePath(u.pathname));
  }

  lemma CollapseFixedExample()
    ensures Collapse("/foo/bar/") == "/foo/bar/"
  {
    assert NoDoubleSlash("/foo/bar/");
    CollapseFixed("/foo/bar/");
  }

  lemma CollapseExample()
    ensures Collapse("//foo/bar/") == "/foo/bar/"
  {
    assert "//foo/bar/"[1..] == "/foo/bar/";
    CollapseFixedExample();
  }

  lemma NormalizePathExample()
    ensures NormalizePath("//foo/bar/") == "/foo/bar"
  {
    CollapseExample();
    assert "/foo/bar/"[..8] == "/foo/bar";
  }

  lemma NormalizeUrlExample()
    ensures NormalizeUrl(Url("https://ejemplo.com", "//foo/bar/", [], "")) == Url("https://ejemplo.com", "/foo/bar", [], "")
  {
    NormalizePathExample();
  }

  /** The repeated slash after the host and the trailing slash both go. */
  lemma NormalizeExample()
    ensures Href(NormalizeUrl(Url("https://ejemplo.com", "//foo/bar/", [], ""))) == "https://ejemplo.com" + "/foo/bar"
  {
    NormalizeUrlExample();
  }

  datatype ParamValue = Text(s: string) | Number(n: int) | Flag(b: bool)

  function DigitsOf(n: nat): string
    decreases n
  {
    var d := ['0' + (n % 10) as char];
    if n < 10 then d else DigitsOf(n / 10) + d
  }

  /** `String(value)` for the three value kinds. */
  function Display(v: ParamValue): string {
    match v
    case Text(s) => s
    case Flag(b) => if b then "true" else "false"
    case Number(n) => if n < 0 then "-" + DigitsOf(-n) else DigitsOf(n)
  }

  function KeyIndex(q: seq<(string, string)>, key: string): (r: int)
    ensures -1 <= r < |q|
    ensures r == -1 <==> forall k :: 0 <= k < |q| ==> q[k].0 != key
    ensures r >= 0 ==> q[r].0 == key && forall k :: 0 <= k < r ==> q[k].0 != key
  {
    if q == [] then -1
    else if q[0].0 == key then 0
    else
      var r := KeyIndex(q[1..], key);
      assert forall k :: 1 <= k < |q| ==> q[k] == q[1..][k - 1];
      if r == -1 then -1 else r + 1
  }

  /** The pairs whose key is not `key`, in order. */
  function DropKey(q: seq<(string, string)>, key: string): seq<(string, string)>
    decreases |q|
  {
    if q == [] then [] else (if q[0].0 == key then [] else [q[0]]) + DropKey(q[1..], key)
  }

  lemma {:induction false} DropKeyAppend(a: seq<(string, string)>, b: seq<(string, string)>, key: string)
    ensures DropKey(a + b, key) == DropKey(a, key) + DropKey(b, key)
    decreases |a|
  {
    if a == [] {
      assert a + b == b;
    } else {
      assert (a + b)[1..] == a[1..] + b;
      DropKeyAppend(a[1..], b, key);
    }
  }

  lemma {:induction false} DropKeyMembers(q: seq<(string, string)>, key: string)
    ensures forall e :: e in DropKey(q, key) ==> e in q && e.0 != key
    decreases |q|
  {
    if q != [] {
      DropKeyMembers(q[1..], key);
    }
  }

  lemma {:induction false} DropKeyNone(q: seq<(string, string)>, key: string)
    requires forall k :: 0 <= k < |q| ==> q[k].0 != key
    ensures DropKey(q, key) == q
    decreases |q|
  {
    if q != [] {
      DropKeyNone(q[1..], key);
    }
  }

  /** `searchParams.set`: the first pair with the key takes the value and the later ones go;
      without one the pair is appended. */
  function SetParam(q: seq<(string, string)>, key: string, value: string): seq<(string, string)> {
    var i := KeyIndex(q, key);
    if i == -1 then q + [(key, value)]
    else q[..i] + [(key, value)] + DropKey(q[i + 1..], key)
  }

  lemma SetParamAppends(q: seq<(string, string)>, key: string, value: string)
    requires KeyIndex(q, key) == -1
    ensures DropKey(SetParam(q, key, value), key) == DropKey(q, key)
  {
    DropKeyAppend(q, [(key, value)], key);
  }

  /** Dropping a key around a pair with that key, when nothing before it has the key. */
  lemma DropAround(before: seq<(string, string)>, x: (string, string), after: seq<(string, string)>, key: string)
    requires x.0 == key
    requires forall k :: 0 <= k < |before| ==> before[k].0 != key
    ensures DropKey(before + [x] + after, key) == before + DropKey(after, key)
  {
    calc {
      DropKey(before + [x] + after, key);
      { DropKeyAppend(before + [x], after, key); }
      DropKey(before + [x], key) + DropKey(after, key);
      { DropKeyAppend(before, [x], key); }
      DropKey(before, key) + DropKey([x], key) + DropKey(after, key);
      { DropKeyNone(before, key); assert DropKey([x], key) == []; }
      before + [] + DropKey(after, key);
      { assert before + [] == before; }
      before + DropKey(after, key);
    }
  }

  lemma {:induction false} DropKeyTwice(q: seq<(string, string)>, key: string)
    ensures DropKey(DropKey(q, key), key) == DropKey(q, key)
    decreases |q|
  {
    if q != [] {
      DropKeyTwice(q[1..], key);
      if q[0].0 != key {
        assert ([q[0]] + DropKey(q[1..], key))[1..] == DropKey(q[1..], key);
      } else {
        assert DropKey(q, key) == DropKey(q[1..], key);
      }
    }
  }

  lemma DropSetParam(q: seq<(string, string)>, key: string, value: string)
    requires KeyIndex(q, key) >= 0
    ensures DropKey(SetParam(q, key, value), key) == q[..KeyIndex(q, key)] + DropKey(q[KeyIndex(q, key) + 1..], key)
  {
    var i := KeyIndex(q, key);
    var rest := DropKey(q[i + 1..], key);
    calc {
      DropKey(SetParam(q, key, value), key);
      DropKey(q[..i] + [(key, value)] + rest, key);
      { DropAround(q[..i], (key, value), rest, key); }
      q[..i] + DropKey(rest, key);
      { DropKeyTwice(q[i + 1..], key); }
      q[..i] + rest;
    }
  }

  lemma DropAtKeyIndex(q: seq<(string, string)>, key: string)
    requires KeyIndex(q, key) >= 0
    ensures DropKey(q, key) == q[..KeyIndex(q, key)] + DropKey(q[KeyIndex(q, key) + 1..], key)
  {
    var i := KeyIndex(q, key);
    assert q == q[..i] + [q[i]] + q[i + 1..];
    DropAround(q[..i], q[i], q[i + 1..], key);
  }

  lemma SetParamReplaces(q: seq<(string, string)>, key: string, value: string)
    requires KeyIndex(q, key) >= 0
    ensures DropKey(SetParam(q, key, value), key) == DropKey(q, key)
  {
    DropSetParam(q, key, value);
    DropAtKeyIndex(q, key);
  }

  /** After `set` the key has one pair, holding the new value; the pairs with other keys are
      the old ones, in the old order. */
  lemma SetParamEffect(q: seq<(string, string)>, key: string, value: string)
    ensures forall e :: e in SetParam(q, key, value) && e.0 == key ==> e == (key, value)
    ensures (key, value) in SetParam(q, key, value)
    ensures DropKey(SetParam(q, key, value), key) == DropKey(q, key)
  {
    if KeyIndex(q, key) == -1 {
      SetParamAppends(q, key, value);
    } else {
      SetParamReplaces(q, key, value);
      DropKeyMembers(q[KeyIndex(q, key) + 1..], key);
    }
  }

  /** The query after the loop over the parameters, in their order; absent values are skipped. */
  function WithParams(q: seq<(string, string)>, params: seq<(string, Option<ParamValue>)>): seq<(string, string)>
    decreases |params|
  {
    if params == [] then q
    else
      var before := WithParams(q, params[..|params| - 1]);
      var (key, value) := params[|params| - 1];
      if value.None? then before else SetParam(before, key, Display(value.value))
  }

  /** The parameters that carry a value, with the value written out. */
  function Present(params: seq<(string, Option<ParamValue>)>): seq<(string, string)>
    decreases |params|
  {
    if params == [] then []
    else
      var before := Present(params[..|params| - 1]);
      var (key, value) := params[|params| - 1];
      if value.None? then before else before + [(key, Display(value.value))]
  }

  predicate DistinctKeys(params: seq<(string, Option<ParamValue>)>) {
    forall a, b :: 0 <= a < b < |params| ==> params[a].0 != params[b].0
  }

  /** On a URL with no query, parameters with distinct keys (those of one object) come out
      as exactly the ones with a value, in their order. */
  lemma {:induction false} FreshQueryKeepsOrder(params: seq<(string, Option<ParamValue>)>)
    requires DistinctKeys(params)
    ensures WithParams([], params) == Present(params)
    ensures forall e :: e in Present(params) ==> exists k :: 0 <= k < |params| && params[k].0 == e.0 && params[k].1.Some?
    decreases |params|
  {
    if params != [] {
      var init := params[..|params| - 1];
      assert DistinctKeys(init) by {
        forall a, b | 0 <= a < b < |init|
          ensures init[a].0 != init[b].0
        {
          assert init[a] == params[a] && init[b] == params[b];
        }
      }
      FreshQueryKeepsOrder(init);
      var (key, value) := params[|params| - 1];
      forall e | e in Present(init)
        ensures e.0 != key
      {
        var k :| 0 <= k < |init| && init[k].0 == e.0 && init[k].1.Some?;
        assert init[k] == params[k];
      }
      forall e | e in Present(params)
        ensures exists k :: 0 <= k < |params| && params[k].0 == e.0 && params[k].1.Some?
      {
        if e in Present(init) {
          var k :| 0 <= k < |init| && init[k].0 == e.0 && init[k].1.Some?;
          assert params[k] == init[k];
        } else {
          assert params[|params| - 1].0 == e.0;
        }
      }
      if value.Some? {
        assert KeyIndex(Present(init), key) == -1;
      }
    }
  }

  /** `buildUrl` on the URL already resolved from the base and the path. */
  method BuildUrl(start: Url, params: seq<(string, Option<ParamValue>)>) returns (href: string)
    ensures href == Href(start.(query := WithParams(start.query, params)))
  {
    var query := start.query;
    var k := 0;
    while k < |params|
      invariant 0 <= k <= |params|
      invariant query == WithParams(start.query, params[..k])
    {
      assert params[..k + 1][..k] == params[..k];
      var (key, value) := params[k];
      if value.Some? {
        query := SetParam(query, key, Display(value.value));
      }
      k := k + 1;
    }
    assert params[..|params|] == params;
    href := Href(start.(query := query));
  }

  /** The search example's parameters, both set, in order. */
  lemma SearchParamsExample()
    ensures WithParams([], [("q", Some(Text("yerba"))), ("page", Some(Number(1)))]) == [("q", "yerba"), ("page", "1")]
  {
    var params := [("q", Some(Text("yerba"))), ("page", Some(Number(1)))];
    FreshQueryKeepsOrder(params);
    assert params[..1] == [("q", Some(Text("yerba")))];
    assert params[..1][..0] == [];
    assert Present(params) == [("q", "yerba"), ("page", "1")];
  }

  /** The search example: both parameters set, in order, on the resolved path. */
  lemma BuildUrlExample()
    ensures Href(Url("https://ejemplo.com", "/buscar", [], "").(query := WithParams([], [("q", Some(Text("yerba"))), ("page", Some(Number(1)))])))
            == "https://ejemplo.com" + "/buscar" + "?" + "q=yerba&page=1"
  {
    SearchParamsExample();
    assert Join([("q", "yerba"), ("page", "1")]) == "q=yerba&page=1";
  }
}
