/**
 * How the upstream rates API reads the URLs the service builds: the endpoint up
 * to the first `?`, then `name=value` parameters separated by `&`. It is the
 * reference against which the three URL templates are read back.
 */
module QueryString {

  import opened JavaText

  datatype Param = Param(name: string, value: string)

  predicate IsSafeName(s: string) { '=' !in s && '&' !in s }

  predicate IsSafeValue(s: string) { '&' !in s }

  function RenderParam(p: Param): string
  {
    p.name + "=" + p.value
  }

  /** `name=value` pairs joined with `&`. */
  function RenderQuery(ps: seq<Param>): string
    requires |ps| >= 1
  {
    if |ps| == 1 then RenderParam(ps[0]) else RenderParam(ps[0]) + "&" + RenderQuery(ps[1..])
  }

  /** One parameter: the name up to the first `=`, the value after it (empty when there is no `=`). */
  function ParseParam(s: string): (p: Param)
    ensures '=' !in p.name
  {
    if '=' !in s then Param(s, "")
    else if s[0] == '=' then Param("", s[1..])
    else
      var p := ParseParam(s[1..]);
      Param([s[0]] + p.name, p.value)
  }

  function ParseParams(pieces: seq<string>): (ps: seq<Param>)
    ensures |ps| == |pieces|
  {
    if pieces == [] then [] else [ParseParam(pieces[0])] + ParseParams(pieces[1..])
  }

  /** The parameters of a query: its `&`-separated pieces, each read as a parameter. */
  function ParseQuery(q: string): seq<Param>
  {
    ParseParams(SplitAll(q, '&'))
  }

  /** The part of a URL after its first `?` (empty when there is none). */
  function QueryOf(url: string): string
  {
    if url == [] then ""
    else if url[0] == '?' then url[1..]
    else QueryOf(url[1..])
  }

  /** A parameter whose name holds no `=` is read back from its rendering. */
  lemma {:induction false} ParseRenderParam(p: Param)
    requires '=' !in p.name
    ensures ParseParam(RenderParam(p)) == p
    decreases |p.name|
  {
    var s := RenderParam(p);
    assert s[|p.name|] == '=';
    if p.name == [] {
      assert s[1..] == p.value;
    } else {
      var q := Param(p.name[1..], p.value);
      assert s[1..] == RenderParam(q);
      ParseRenderParam(q);
      assert [p.name[0]] + p.name[1..] == p.name;
    }
  }

  /** Rendering separates the parameters by `&` and nothing else. */
  lemma {:induction false} RenderQueryIsJoin(ps: seq<Param>)
    requires |ps| >= 1
    requires forall i | 0 <= i < |ps| :: IsSafeName(ps[i].name) && IsSafeValue(ps[i].value)
    ensures SplitAll(RenderQuery(ps), '&') == seq(|ps|, i requires 0 <= i < |ps| => RenderParam(ps[i]))
    decreases |ps|
  {
    var r0 := RenderParam(ps[0]);
    assert '&' !in r0;
    if |ps| == 1 {
      SplitAllNoSeparator(r0, '&');
    } else {
      RenderQueryIsJoin(ps[1..]);
      SplitAllPrefix(r0, '&', RenderQuery(ps[1..]));
    }
  }

  /** A query rendered from safe parameters is read back as exactly those parameters, in order. */
  lemma {:induction false} ParseRenderQuery(ps: seq<Param>)
    requires |ps| >= 1
    requires forall i | 0 <= i < |ps| :: IsSafeName(ps[i].name) && IsSafeValue(ps[i].value)
    ensures ParseQuery(RenderQuery(ps)) == ps
  {
    RenderQueryIsJoin(ps);
    ParseRenderedParams(ps);
  }

  lemma {:induction false} ParseRenderedParams(ps: seq<Param>)
    requires forall i | 0 <= i < |ps| :: '=' !in ps[i].name
    ensures ParseParams(seq(|ps|, i requires 0 <= i < |ps| => RenderParam(ps[i]))) == ps
    decreases |ps|
  {
    if ps != [] {
      var pieces := seq(|ps|, i requires 0 <= i < |ps| => RenderParam(ps[i]));
      assert pieces[1..] == seq(|ps[1..]|, i requires 0 <= i < |ps[1..]| => RenderParam(ps[1..][i]));
      ParseRenderedParams(ps[1..]);
      ParseRenderParam(ps[0]);
      assert [ps[0]] + ps[1..] == ps;
    }
  }

  /** The query of an endpoint without `?` followed by `?` and a query is that query. */
  lemma {:induction false} QueryOfEndpoint(endpoint: string, q: string)
    requires '?' !in endpoint
    ensures QueryOf(endpoint + "?" + q) == q
    decreases |endpoint|
  {
    if endpoint == [] {
      assert (endpoint + "?" + q)[1..] == q;
    } else {
      assert (endpoint + "?" + q)[1..] == endpoint[1..] + "?" + q;
      assert endpoint[0] in endpoint;
      QueryOfEndpoint(endpoint[1..], q);
    }
  }

  /** The parameters the upstream reads from `endpoint?query` when the endpoint, names and values are safe. */
  lemma ParametersOfUrl(endpoint: string, ps: seq<Param>)
    requires '?' !in endpoint && |ps| >= 1
    requires forall i | 0 <= i < |ps| :: IsSafeName(ps[i].name) && IsSafeValue(ps[i].value)
    ensures ParseQuery(QueryOf(endpoint + "?" + RenderQuery(ps))) == ps
  {
    QueryOfEndpoint(endpoint, RenderQuery(ps));
    ParseRenderQuery(ps);
  }

  /** The rendering of two parameters, written out. */
  lemma RenderTwo(n0: string, v0: string, n1: string, v1: string)
    ensures RenderQuery([Param(n0, v0), Param(n1, v1)]) == n0 + "=" + v0 + "&" + n1 + "=" + v1
  {
    assert [Param(n0, v0), Param(n1, v1)][1..] == [Param(n1, v1)];
  }

  /** A URL spelled with `?name=` and `&name=` pieces has the rendered parameters as its query. */
  lemma UrlOfTwo(e: string, p0: string, n0: string, v0: string, p1: string, n1: string, v1: string)
    requires p0 == "?" + n0 + "=" && p1 == "&" + n1 + "="
    ensures e + p0 + v0 + p1 + v1 == e + "?" + RenderQuery([Param(n0, v0), Param(n1, v1)])
  {
    RenderTwo(n0, v0, n1, v1);
  }

  /** Rendering one more parameter appends `&name=value`. */
  lemma {:induction false} RenderSnoc(ps: seq<Param>, p: Param)
    requires |ps| >= 1
    ensures RenderQuery(ps + [p]) == RenderQuery(ps) + "&" + RenderParam(p)
    decreases |ps|
  {
    if |ps| == 1 {
      assert (ps + [p])[1..] == [p];
    } else {
      assert (ps + [p])[1..] == ps[1..] + [p];
      RenderSnoc(ps[1..], p);
    }
  }

  /** A URL with a query, followed by an `&name=` piece and a value, has one more parameter. */
  lemma UrlAppend(e: string, ps: seq<Param>, piece: string, n: string, v: string)
    requires |ps| >= 1 && piece == "&" + n + "="
    ensures e + "?" + RenderQuery(ps) + piece + v == e + "?" + RenderQuery(ps + [Param(n, v)])
  {
    var q, w := RenderQuery(ps), n + "=" + v;
    calc {
      e + "?" + q + piece + v;
      { Associative(e + "?" + q, piece, v); }
      (e + "?" + q) + (piece + v);
      { Associative("&" + n, "=", v); Associative("&", n, w); }
      (e + "?" + q) + ("&" + w);
      { Associative(e + "?", q, "&" + w); }
      (e + "?") + (q + ("&" + w));
      { Associative(q, "&", w); }
      (e + "?") + (q + "&" + w);
      { RenderSnoc(ps, Param(n, v)); }
      e + "?" + RenderQuery(ps + [Param(n, v)]);
    }
  }

  /** Concatenation regroups freely. */
  lemma Associative(a: string, b: string, c: string)
    ensures a + b + c == a + (b + c)
  {
  }
}
