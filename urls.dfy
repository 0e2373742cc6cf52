/** The part of WHATWG `URLSearchParams` the layer uses, over an ordered list
    of `name=value` pairs: `append`, `set`, reading the pairs into a plain
    object (`forEach` writing `params[key] = value`), and the redirect URL
    built by `redirectFromAuthHandler`. */
module Urls {
  import opened Types

  /** The values stored under `k`, in query order (`searchParams.getAll(k)`). */
  function ValuesOf(q: seq<Param>, k: string): seq<string>
    decreases |q|
  {
    if q == [] then []
    else (if q[0].key == k then [q[0].value] else []) + ValuesOf(q[1..], k)
  }

  predicate HasKey(q: seq<Param>, k: string)
  {
    exists i :: 0 <= i < |q| && q[i].key == k
  }

  lemma {:induction false} ValuesOfEmpty(q: seq<Param>, k: string)
    ensures ValuesOf(q, k) == [] <==> !HasKey(q, k)
    decreases |q|
  {
    if q != [] {
      ValuesOfEmpty(q[1..], k);
      if HasKey(q[1..], k) {
        var i :| 0 <= i < |q[1..]| && q[1..][i].key == k;
        assert q[i + 1].key == k;
      }
      if HasKey(q, k) && q[0].key != k {
        var i :| 0 <= i < |q| && q[i].key == k;
        assert q[1..][i - 1].key == k;
      }
    }
  }

  lemma {:induction false} ValuesOfConcat(a: seq<Param>, b: seq<Param>, k: string)
    ensures ValuesOf(a + b, k) == ValuesOf(a, k) + ValuesOf(b, k)
    decreases |a|
  {
    if a == [] {
      assert a + b == b;
    } else {
      assert (a + b)[0] == a[0] && (a + b)[1..] == a[1..] + b;
      ValuesOfConcat(a[1..], b, k);
    }
  }

  /** `searchParams.append(k, v)`. */
  function Append(q: seq<Param>, k: string, v: string): (r: seq<Param>)
    ensures ValuesOf(r, k) == ValuesOf(q, k) + [v]
    ensures forall k' :: k' != k ==> ValuesOf(r, k') == ValuesOf(q, k')
  {
    var r := q + [Param(k, v)];
    ValuesOfConcat(q, [Param(k, v)], k);
    forall k' | k' != k
      ensures ValuesOf(r, k') == ValuesOf(q, k')
    {
      ValuesOfConcat(q, [Param(k, v)], k');
    }
    r
  }

  /** Every pair named `k` dropped, the others kept in order. */
  function RemoveKey(q: seq<Param>, k: string): (r: seq<Param>)
    ensures !HasKey(r, k)
    ensures forall k' :: k' != k ==> ValuesOf(r, k') == ValuesOf(q, k')
    decreases |q|
  {
    if q == [] then []
    else
      var rest := RemoveKey(q[1..], k);
      if q[0].key == k then rest
      else
        assert ([q[0]] + rest)[1..] == rest;
        [q[0]] + rest
  }

  /** `searchParams.set(k, v)`: the first pair named `k` takes the value `v` in
      place and the later ones are removed; with no such pair, one is appended. */
  function SetParam(q: seq<Param>, k: string, v: string): (r: seq<Param>)
    ensures ValuesOf(r, k) == [v]
    ensures forall k' :: k' != k ==> ValuesOf(r, k') == ValuesOf(q, k')
    ensures !HasKey(q, k) ==> r == q + [Param(k, v)]
    decreases |q|
  {
    if q == [] then [Param(k, v)]
    else if q[0].key == k then
      var r := [Param(k, v)] + RemoveKey(q[1..], k);
      assert r[1..] == RemoveKey(q[1..], k);
      ValuesOfEmpty(RemoveKey(q[1..], k), k);
      r
    else
      var rest := SetParam(q[1..], k, v);
      assert ([q[0]] + rest)[1..] == rest;
      assert !HasKey(q, k) ==> !HasKey(q[1..], k) by {
        if HasKey(q[1..], k) {
          var i :| 0 <= i < |q[1..]| && q[1..][i].key == k;
          assert q[i + 1].key == k;
        }
      }
      assert !HasKey(q, k) ==> [q[0]] + (q[1..] + [Param(k, v)]) == q + [Param(k, v)];
      [q[0]] + rest
  }

  /** The value a plain object ends up holding for `k` after every pair has been
      written into it in order: the last one. */
  function LastValue(q: seq<Param>, k: string): Option<string>
    decreases |q|
  {
    if q == [] then None
    else if q[|q| - 1].key == k then Some(q[|q| - 1].value)
    else LastValue(q[..|q| - 1], k)
  }

  /** `params[key] = value` for each pair in order, starting from `{}`. */
  function ParamsObject(q: seq<Param>): map<string, string>
    decreases |q|
  {
    if q == [] then map[] else ParamsObject(q[..|q| - 1])[q[|q| - 1].key := q[|q| - 1].value]
  }

  /** The object holds exactly the keys of the query, each with its last value:
      for a duplicated key, the last one wins. */
  lemma {:induction false} ParamsObjectLastWins(q: seq<Param>, k: string)
    ensures k in ParamsObject(q) <==> HasKey(q, k)
    ensures k in ParamsObject(q) ==> LastValue(q, k) == Some(ParamsObject(q)[k])
    ensures k !in ParamsObject(q) ==> LastValue(q, k) == None
    decreases |q|
  {
    if q != [] {
      var init := q[..|q| - 1];
      ParamsObjectLastWins(init, k);
      if HasKey(init, k) {
        var i :| 0 <= i < |init| && init[i].key == k;
        assert q[i].key == k;
      }
      if HasKey(q, k) && q[|q| - 1].key != k {
        var i :| 0 <= i < |q| && q[i].key == k;
        assert init[i].key == k;
      }
    }
  }

  /** A member of a `Record<string, string | undefined>` in insertion order. */
  datatype Field = Field(key: string, value: Option<string>)

  /** `value || ""`. */
  function OrEmpty(v: Option<string>): (r: string)
    ensures Present(v) ==> r == v.value
    ensures !Present(v) ==> r == ""
  {
    if v.Some? then v.value else ""
  }

  /** `searchParams.set(key, value || "")` for each field in order. */
  function SetAll(q: seq<Param>, fields: seq<Field>): seq<Param>
    decreases |fields|
  {
    if fields == [] then q
    else
      var last := fields[|fields| - 1];
      SetParam(SetAll(q, fields[..|fields| - 1]), last.key, OrEmpty(last.value))
  }

  /** The pairs written for fields with pairwise distinct keys. */
  function Normalised(fields: seq<Field>): (r: seq<Param>)
    ensures |r| == |fields|
    ensures forall i :: 0 <= i < |fields| ==> r[i] == Param(fields[i].key, OrEmpty(fields[i].value))
  {
    seq(|fields|, i requires 0 <= i < |fields| => Param(fields[i].key, OrEmpty(fields[i].value)))
  }

  predicate DistinctKeys(fields: seq<Field>)
  {
    forall i, j :: 0 <= i < j < |fields| ==> fields[i].key != fields[j].key
  }

  /** Setting fields with distinct keys on an empty query lists them once each,
      in order, an undefined value written as `""`. */
  lemma {:induction false} SetAllDistinct(fields: seq<Field>)
    requires DistinctKeys(fields)
    ensures SetAll([], fields) == Normalised(fields)
    decreases |fields|
  {
    if fields != [] {
      var n := |fields|;
      var init := fields[..n - 1];
      var last := fields[n - 1];
      SetAllDistinct(init);
      assert !HasKey(Normalised(init), last.key);
      assert Normalised(init) + [Param(last.key, OrEmpty(last.value))] == Normalised(fields);
    }
  }

  /** The URL `redirectFromAuthHandler` redirects to: the request URL with its
      query cleared, its path replaced by `path`, and then the fields set. */
  function AuthHandlerUrl(requestUrl: Url, path: string, fields: Option<seq<Field>>): (u: Url)
    ensures u.origin == requestUrl.origin && u.pathname == path
    ensures fields.None? ==> u.query == []
  {
    Url(requestUrl.origin, path, if fields.Some? then SetAll([], fields.value) else [])
  }

  /** `redirectFromAuthHandler(request, path, params)`: clones the request URL,
      clears its search, sets its path, then sets each param in turn. */
  method RedirectFromAuthHandler(requestUrl: Url, path: string, fields: Option<seq<Field>>) returns (r: Response)
    ensures r == Redirect(AuthHandlerUrl(requestUrl, path, fields))
  {
    var url := requestUrl;
    url := url.(query := []);
    url := url.(pathname := path);
    if fields.Some? {
      var ps := fields.value;
      var i := 0;
      while i < |ps|
        invariant 0 <= i <= |ps|
        invariant url == Url(requestUrl.origin, path, SetAll([], ps[..i]))
      {
        assert ps[..i + 1][..i] == ps[..i];
        url := url.(query := SetParam(url.query, ps[i].key, OrEmpty(ps[i].value)));
        i := i + 1;
      }
      assert ps[..|ps|] == ps;
    }
    r := Redirect(url);
  }

  /** The redirect that carries an error to the login page: exactly the two
      pairs `message` and `code`, in that order, on the login page's path. */
  lemma ErrorRedirectQuery(requestUrl: Url, path: string, message: string, code: string)
    ensures AuthHandlerUrl(requestUrl, path, Some([Field("message", Some(message)), Field("code", Some(code))]))
         == Url(requestUrl.origin, path, [Param("message", message), Param("code", code)])
  {
    var fields := [Field("message", Some(message)), Field("code", Some(code))];
    SetAllDistinct(fields);
  }
}
