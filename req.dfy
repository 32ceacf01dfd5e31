/**
 * Request materialisation (internal/req/req.go): building the request URL
 * from path and query parameters, substituting `{{key}}` variables into a
 * request in place, and copying a request template so that substitution
 * never touches the template.
 */
module Request {
  import opened GoStrings
  import opened GoMaps
  import opened PCollection

  // ---------------------------------------------------------------------
  // Substitution steps
  // ---------------------------------------------------------------------

  /** One replacement step: every occurrence of `token` becomes `value`. */
  datatype Sub = Sub(token: string, value: string)

  function Apply(s: string, sub: Sub): string
  {
    ReplaceAll(s, sub.token, sub.value)
  }

  /** The steps applied one after another, first to last. */
  function SubstituteAll(s: string, subs: seq<Sub>): string
    decreases |subs|
  {
    if subs == [] then s
    else Apply(SubstituteAll(s, subs[..|subs| - 1]), subs[|subs| - 1])
  }

  lemma SubstituteAllStep(s: string, subs: seq<Sub>, sub: Sub)
    ensures SubstituteAll(s, subs + [sub]) == Apply(SubstituteAll(s, subs), sub)
  {
    assert (subs + [sub])[..|subs|] == subs;
  }

  /** Applying `a ++ b` is applying `a`, then `b`. */
  lemma {:induction false} SubstituteAllConcat(s: string, a: seq<Sub>, b: seq<Sub>)
    ensures SubstituteAll(s, a + b) == SubstituteAll(SubstituteAll(s, a), b)
    decreases |b|
  {
    if b == [] {
      assert a + b == a;
    } else {
      assert (a + b)[..|a + b| - 1] == a + b[..|b| - 1];
      SubstituteAllConcat(s, a, b[..|b| - 1]);
    }
  }

  /** A string that holds none of the (non-empty) tokens passes through unchanged. */
  lemma {:induction false} SubstituteAllAbsent(s: string, subs: seq<Sub>)
    requires forall i :: 0 <= i < |subs| ==> subs[i].token != [] && !Contains(s, subs[i].token)
    ensures SubstituteAll(s, subs) == s
    decreases |subs|
  {
    if subs != [] {
      SubstituteAllAbsent(s, subs[..|subs| - 1]);
      ReplaceAllAbsent(s, subs[|subs| - 1].token, subs[|subs| - 1].value);
    }
  }

  // ---------------------------------------------------------------------
  // CreateEndpoint (req.go:10-23)
  // ---------------------------------------------------------------------

  /** The path token of parameter `k`, Go's `fmt.Sprintf(":%s", k)`. */
  function PathToken(k: string): string
  {
    ":" + k
  }

  /** The replacement steps of the path parameters, visited in `order`. */
  function PathSubs(pathParam: map<string, string>, order: seq<string>): (subs: seq<Sub>)
    requires forall k :: k in order ==> k in pathParam
    ensures |subs| == |order|
    ensures forall i :: 0 <= i < |order| ==> subs[i] == Sub(PathToken(order[i]), pathParam[order[i]])
    decreases |order|
  {
    if order == [] then []
    else
      var k := order[|order| - 1];
      PathSubs(pathParam, order[..|order| - 1]) + [Sub(PathToken(k), pathParam[k])]
  }

  lemma PathSubsStep(pathParam: map<string, string>, order: seq<string>, k: string)
    requires forall j :: j in order ==> j in pathParam
    requires k in pathParam
    ensures PathSubs(pathParam, order + [k]) == PathSubs(pathParam, order) + [Sub(PathToken(k), pathParam[k])]
  {
    assert (order + [k])[..|order|] == order;
  }

  /** One query pair, Go's `fmt.Sprintf("%s=%s&", k, v)`. */
  function QueryPair(k: string, v: string): string
  {
    k + "=" + v + "&"
  }

  /** The query pairs of the parameters visited in `order`, concatenated. */
  function Query(getParam: map<string, string>, order: seq<string>): string
    requires forall k :: k in order ==> k in getParam
    decreases |order|
  {
    if order == [] then ""
    else
      var k := order[|order| - 1];
      Query(getParam, order[..|order| - 1]) + QueryPair(k, getParam[k])
  }

  lemma QueryStep(getParam: map<string, string>, order: seq<string>, k: string)
    requires forall j :: j in order ==> j in getParam
    requires k in getParam
    ensures Query(getParam, order + [k]) == Query(getParam, order) + QueryPair(k, getParam[k])
  {
    assert (order + [k])[..|order|] == order;
  }

  /** The sum of `|k| + |v| + 2` over the parameters visited in `order`. */
  function QueryLength(getParam: map<string, string>, order: seq<string>): nat
    requires forall k :: k in order ==> k in getParam
    decreases |order|
  {
    if order == [] then 0
    else
      var k := order[|order| - 1];
      QueryLength(getParam, order[..|order| - 1]) + |k| + |getParam[k]| + 2
  }

  /**
   * The URL `CreateEndpoint` builds when it visits the path parameters in
   * `pathOrder` and the query parameters in `getOrder`.
   */
  function Endpoint(url: string, getParam: map<string, string>, pathParam: map<string, string>,
                    getOrder: seq<string>, pathOrder: seq<string>): string
    requires forall k :: k in getOrder ==> k in getParam
    requires forall k :: k in pathOrder ==> k in pathParam
  {
    SubstituteAll(url, PathSubs(pathParam, pathOrder)) + "?" + Query(getParam, getOrder)
  }

  /**
   * Go's `CreateEndpoint`: replaces every `:name` path token, then appends
   * `?` and one `name=value&` pair per query parameter. The orders in which
   * Go visits the two maps are returned as ghost results.
   */
  method CreateEndpoint(url: string, getParam: map<string, string>, pathParam: map<string, string>)
    returns (endpoint: string, ghost getOrder: seq<string>, ghost pathOrder: seq<string>)
    ensures IsEnumeration(getOrder, getParam.Keys) && IsEnumeration(pathOrder, pathParam.Keys)
    ensures endpoint == Endpoint(url, getParam, pathParam, getOrder, pathOrder)
    ensures |endpoint| > 0 && endpoint[|endpoint| - 1] == if getParam == map[] then '?' else '&'
    ensures forall k :: k in getParam ==> Contains(endpoint, QueryPair(k, getParam[k]))
  {
    var u;
    u, pathOrder := SubstitutePathParams(url, pathParam);
    endpoint, getOrder := AppendQuery(u + "?", getParam);
    EndpointLastChar(url, getParam, pathParam, getOrder, pathOrder);
    forall k | k in getParam
      ensures Contains(endpoint, QueryPair(k, getParam[k]))
    {
      EndpointHoldsEachPair(url, getParam, pathParam, getOrder, pathOrder, k);
    }
  }

  /** The URL after the path parameters `keys[..i]` of a visiting order have been substituted. */
  ghost function PathPrefix(url: string, pathParam: map<string, string>, keys: seq<string>, i: nat): string
    requires IsEnumeration(keys, pathParam.Keys) && i <= |keys|
  {
    assert forall k :: k in keys[..i] ==> k in keys;
    SubstituteAll(url, PathSubs(pathParam, keys[..i]))
  }

  /** The substitution of one more path parameter of the visiting order. */
  lemma PathPrefixStep(url: string, pathParam: map<string, string>, keys: seq<string>, i: nat)
    requires IsEnumeration(keys, pathParam.Keys) && i < |keys|
    ensures keys[i] in pathParam
    ensures PathPrefix(url, pathParam, keys, i + 1)
            == ReplaceAll(PathPrefix(url, pathParam, keys, i), ":" + keys[i], pathParam[keys[i]])
  {
    var k := keys[i];
    assert keys[..i + 1] == keys[..i] + [k];
    assert forall j :: j in keys[..i] ==> j in keys;
    PathSubsStep(pathParam, keys[..i], k);
    SubstituteAllStep(url, PathSubs(pathParam, keys[..i]), Sub(PathToken(k), pathParam[k]));
  }

  /** The loop over the path parameters (req.go:12-15). */
  method SubstitutePathParams(url: string, pathParam: map<string, string>)
    returns (u: string, ghost order: seq<string>)
    ensures IsEnumeration(order, pathParam.Keys)
    ensures u == SubstituteAll(url, PathSubs(pathParam, order))
  {
    u := url;
    var keys := Keys(pathParam);
    assert keys[..0] == [];
    for i := 0 to |keys|
      invariant u == PathPrefix(url, pathParam, keys, i)
    {
      var k := keys[i];
      var key := ":" + k;
      PathPrefixStep(url, pathParam, keys, i);
      u := ReplaceAll(u, key, pathParam[k]);
    }
    assert keys[..|keys|] == keys;
    order := keys;
  }

  /** The query part after one more query parameter of the visiting order. */
  lemma QueryPrefixStep(prefix: string, getParam: map<string, string>, keys: seq<string>, i: nat)
    requires IsEnumeration(keys, getParam.Keys) && i < |keys|
    ensures forall k :: k in keys[..i + 1] ==> k in getParam
    ensures prefix + Query(getParam, keys[..i + 1])
            == prefix + Query(getParam, keys[..i]) + QueryPair(keys[i], getParam[keys[i]])
  {
    var k := keys[i];
    assert keys[..i + 1] == keys[..i] + [k];
    QueryStep(getParam, keys[..i], k);
  }

  /** The loop over the query parameters (req.go:17-21). */
  method AppendQuery(prefix: string, getParam: map<string, string>)
    returns (endpoint: string, ghost order: seq<string>)
    ensures IsEnumeration(order, getParam.Keys)
    ensures endpoint == prefix + Query(getParam, order)
    ensures prefix <= endpoint && HoldsEachPair(endpoint[|prefix|..], getParam)
  {
    endpoint := prefix;
    var keys := Keys(getParam);
    for i := 0 to |keys|
      invariant forall k :: k in keys[..i] ==> k in getParam
      invariant endpoint == prefix + Query(getParam, keys[..i])
    {
      var gk := keys[i];
      QueryPrefixStep(prefix, getParam, keys, i);
      endpoint := endpoint + QueryPair(gk, getParam[gk]);
    }
    assert keys[..|keys|] == keys;
    order := keys;
    QueryHoldsAllPairs(prefix, getParam, order);
  }

  /** `q` holds the `name=value&` pair of every query parameter. */
  ghost predicate HoldsEachPair(q: string, getParam: map<string, string>)
  {
    forall k :: k in getParam ==> Contains(q, QueryPair(k, getParam[k]))
  }

  /** Appending the query part to `prefix` keeps `prefix` and adds every pair. */
  lemma QueryHoldsAllPairs(prefix: string, getParam: map<string, string>, order: seq<string>)
    requires IsEnumeration(order, getParam.Keys)
    ensures var e := prefix + Query(getParam, order);
            prefix <= e && HoldsEachPair(e[|prefix|..], getParam)
  {
    assert (prefix + Query(getParam, order))[|prefix|..] == Query(getParam, order);
    forall k | k in getParam
      ensures Contains(Query(getParam, order), QueryPair(k, getParam[k]))
    {
      QueryHoldsEachPair(getParam, order, k);
    }
  }

  /** With no query parameters the endpoint is the path-substituted URL and a bare `?`. */
  lemma EndpointWithoutQuery(url: string, pathParam: map<string, string>,
                             getOrder: seq<string>, pathOrder: seq<string>)
    requires IsEnumeration(getOrder, {}) && IsEnumeration(pathOrder, pathParam.Keys)
    ensures Endpoint(url, map[], pathParam, getOrder, pathOrder)
         == SubstituteAll(url, PathSubs(pathParam, pathOrder)) + "?"
  {
    EnumerationOfEmpty(getOrder);
  }

  /** The endpoint ends in `?` exactly when there are no query parameters, in `&` otherwise. */
  lemma EndpointLastChar(url: string, getParam: map<string, string>, pathParam: map<string, string>,
                         getOrder: seq<string>, pathOrder: seq<string>)
    requires IsEnumeration(getOrder, getParam.Keys) && IsEnumeration(pathOrder, pathParam.Keys)
    ensures var e := Endpoint(url, getParam, pathParam, getOrder, pathOrder);
            |e| > 0 && e[|e| - 1] == if getParam == map[] then '?' else '&'
  {
    if getParam == map[] {
      EnumerationOfEmpty(getOrder);
    } else {
      var k :| k in getParam;
      assert k in getOrder;
      var q := Query(getParam, getOrder);
      var last := getOrder[|getOrder| - 1];
      assert q == Query(getParam, getOrder[..|getOrder| - 1]) + QueryPair(last, getParam[last]);
    }
  }

  /** The query part is exactly as long as the sum of `|k| + |v| + 2` over its pairs. */
  lemma {:induction false} QueryHasLength(getParam: map<string, string>, order: seq<string>)
    requires forall k :: k in order ==> k in getParam
    ensures |Query(getParam, order)| == QueryLength(getParam, order)
    decreases |order|
  {
    if order != [] {
      QueryHasLength(getParam, order[..|order| - 1]);
    }
  }

  /** The endpoint's length: the substituted URL, the `?`, and every pair. */
  lemma EndpointLength(url: string, getParam: map<string, string>, pathParam: map<string, string>,
                       getOrder: seq<string>, pathOrder: seq<string>)
    requires IsEnumeration(getOrder, getParam.Keys) && IsEnumeration(pathOrder, pathParam.Keys)
    ensures |Endpoint(url, getParam, pathParam, getOrder, pathOrder)|
         == |SubstituteAll(url, PathSubs(pathParam, pathOrder))| + 1 + QueryLength(getParam, getOrder)
  {
    QueryHasLength(getParam, getOrder);
  }

  lemma ContainsInLeft(a: string, b: string, t: string)
    requires Contains(a, t)
    ensures Contains(a + b, t)
  {
    var i: nat :| OccursAt(a, t, i);
    assert (a + b)[i..i + |t|] == a[i..i + |t|];
    assert OccursAt(a + b, t, i);
  }

  lemma ContainsAtEnd(a: string, t: string)
    ensures Contains(a + t, t)
  {
    assert (a + t)[|a|..|a| + |t|] == t;
    assert OccursAt(a + t, t, |a|);
  }

  /** Every query parameter contributes its `name=value&` pair to the query part. */
  lemma {:induction false} QueryHoldsEachPair(getParam: map<string, string>, order: seq<string>, k: string)
    requires forall j :: j in order ==> j in getParam
    requires k in order
    ensures Contains(Query(getParam, order), QueryPair(k, getParam[k]))
    decreases |order|
  {
    var init := order[..|order| - 1];
    var last := order[|order| - 1];
    if k == last {
      ContainsAtEnd(Query(getParam, init), QueryPair(k, getParam[k]));
    } else {
      assert k in init by {
        var i :| 0 <= i < |order| && order[i] == k;
        assert i < |order| - 1 && init[i] == k;
      }
      QueryHoldsEachPair(getParam, init, k);
      ContainsInLeft(Query(getParam, init), QueryPair(last, getParam[last]), QueryPair(k, getParam[k]));
    }
  }

  /** The endpoint holds the `name=value&` pair of every query parameter. */
  lemma EndpointHoldsEachPair(url: string, getParam: map<string, string>, pathParam: map<string, string>,
                              getOrder: seq<string>, pathOrder: seq<string>, k: string)
    requires IsEnumeration(getOrder, getParam.Keys) && IsEnumeration(pathOrder, pathParam.Keys)
    requires k in getParam
    ensures Contains(Endpoint(url, getParam, pathParam, getOrder, pathOrder), QueryPair(k, getParam[k]))
  {
    var prefix := SubstituteAll(url, PathSubs(pathParam, pathOrder)) + "?";
    QueryHoldsEachPair(getParam, getOrder, k);
    var q := Query(getParam, getOrder);
    var t := QueryPair(k, getParam[k]);
    var i: nat :| OccursAt(q, t, i);
    assert (prefix + q)[|prefix| + i..|prefix| + i + |t|] == q[i..i + |t|];
    assert OccursAt(prefix + q, t, |prefix| + i);
  }

  /** Without path parameters the URL passes through verbatim. */
  lemma PathWithoutParams(url: string, pathOrder: seq<string>)
    requires IsEnumeration(pathOrder, {})
    ensures SubstituteAll(url, PathSubs(map[], pathOrder)) == url
  {
    EnumerationOfEmpty(pathOrder);
  }

  /** A URL holding no `:name` token of any path parameter passes through verbatim. */
  lemma PathWithoutTokens(url: string, pathParam: map<string, string>, pathOrder: seq<string>)
    requires IsEnumeration(pathOrder, pathParam.Keys)
    requires forall k :: k in pathParam ==> !Contains(url, PathToken(k))
    ensures SubstituteAll(url, PathSubs(pathParam, pathOrder)) == url
  {
    var subs := PathSubs(pathParam, pathOrder);
    assert forall i :: 0 <= i < |subs| ==> subs[i].token != [] && !Contains(url, subs[i].token) by {
      forall i | 0 <= i < |subs|
        ensures subs[i].token != [] && !Contains(url, subs[i].token)
      {
        assert pathOrder[i] in pathParam;
      }
    }
    SubstituteAllAbsent(url, subs);
  }

  /** `CreateEndpoint("/users/:id", {}, {"id": "42"})` is `"/users/42?"`. */
  lemma EndpointExample(getOrder: seq<string>, pathOrder: seq<string>)
    requires IsEnumeration(getOrder, {}) && IsEnumeration(pathOrder, {"id"})
    ensures Endpoint("/users/:id", map[], map["id" := "42"], getOrder, pathOrder) == "/users/42?"
  {
    EnumerationOfEmpty(getOrder);
    EnumerationOfSingleton(pathOrder, "id");
    assert PathToken("id") == ":id";
    assert PathSubs(map["id" := "42"], pathOrder) == [Sub(":id", "42")] by {
      PathSubsStep(map["id" := "42"], [], "id");
      assert [] + ["id"] == pathOrder;
    }
    assert SubstituteAll("/users/:id", [Sub(":id", "42")]) == ReplaceAll("/users/:id", ":id", "42") by {
      assert [Sub(":id", "42")][..0] == [];
    }
    UsersIdReplaced();
  }

  lemma UsersIdReplaced()
    ensures ReplaceAll("/users/:id", ":id", "42") == "/users/42"
  {
    var p := "/users/";
    var t := ":id";
    assert ':' !in p;
    ReplaceAllSkipsPrefix(p, t, t, "42");
    ReplaceAllLeading([], t, "42");
    assert p + t == "/users/:id";
    assert t + [] == t;
    assert "42" + [] == "42";
    assert p + "42" == "/users/42";
  }

  // ---------------------------------------------------------------------
  // ResolveVars (req.go:25-52)
  // ---------------------------------------------------------------------

  /** The placeholder of variable `key`, Go's `fmt.Sprintf("{{%s}}", key)`. */
  function Token(key: string): string
  {
    "{{" + key + "}}"
  }

  /** The replacement steps of a variable list, in list order. */
  function VarSubs(vars: seq<KeyValue>): seq<Sub>
  {
    seq(|vars|, i requires 0 <= i < |vars| => Sub(Token(vars[i].key), vars[i].value))
  }

  /** The steps of two lists one after the other are the steps of the lists concatenated. */
  lemma VarSubsConcat(a: seq<KeyValue>, b: seq<KeyValue>)
    ensures VarSubs(a + b) == VarSubs(a) + VarSubs(b)
  {
  }

  /** A string field after the variables `vars` have been substituted, first to last. */
  function Resolve(s: string, vars: seq<KeyValue>): string
  {
    SubstituteAll(s, VarSubs(vars))
  }

  /**
   * One pass of `for k, v := range m { m[Apply(k)] = Apply(v) }` visiting the
   * keys in `order`. A visit reads the CURRENT value of its key, which an
   * earlier visit of the same pass may have overwritten; no key is deleted.
   */
  function Pass(m: map<string, string>, order: seq<string>, sub: Sub): (r: map<string, string>)
    requires forall k :: k in order ==> k in m
    ensures r.Keys == m.Keys + (set k | k in order :: Apply(k, sub))
    decreases |order|
  {
    if order == [] then m
    else
      var prev := Pass(m, order[..|order| - 1], sub);
      var k := order[|order| - 1];
      prev[Apply(k, sub) := Apply(prev[k], sub)]
  }

  lemma PassStep(m: map<string, string>, order: seq<string>, k: string, sub: Sub)
    requires forall j :: j in order ==> j in m
    requires k in m
    ensures var prev := Pass(m, order, sub);
            Pass(m, order + [k], sub) == prev[Apply(k, sub) := Apply(prev[k], sub)]
  {
    assert (order + [k])[..|order|] == order;
  }

  /**
   * `orders[i]` enumerates the keys the map holds when pass `i` starts: the
   * orders in which Go may visit the map, one pass per substitution step.
   */
  ghost predicate IsSchedule(m: map<string, string>, subs: seq<Sub>, orders: seq<seq<string>>)
    decreases |subs|, 0
  {
    && |orders| == |subs|
    && (subs != [] ==>
          && IsSchedule(m, subs[..|subs| - 1], orders[..|orders| - 1])
          && IsEnumeration(orders[|orders| - 1],
                           ResolveMap(m, subs[..|subs| - 1], orders[..|orders| - 1]).Keys))
  }

  /** The map after one pass per substitution step, visiting the keys as `orders` says. */
  ghost function ResolveMap(m: map<string, string>, subs: seq<Sub>, orders: seq<seq<string>>): map<string, string>
    requires IsSchedule(m, subs, orders)
    decreases |subs|, 1
  {
    if subs == [] then m
    else
      Pass(ResolveMap(m, subs[..|subs| - 1], orders[..|orders| - 1]),
           orders[|orders| - 1], subs[|subs| - 1])
  }

  /** `r` is `m` after the passes of `subs`, visiting the keys as `orders` says. */
  ghost predicate Scheduled(m: map<string, string>, subs: seq<Sub>, orders: seq<seq<string>>, r: map<string, string>)
  {
    IsSchedule(m, subs, orders) && r == ResolveMap(m, subs, orders)
  }

  lemma ResolveMapStep(m: map<string, string>, subs: seq<Sub>, orders: seq<seq<string>>, r: map<string, string>,
                       sub: Sub, order: seq<string>)
    requires Scheduled(m, subs, orders, r)
    requires IsEnumeration(order, r.Keys)
    ensures Scheduled(m, subs + [sub], orders + [order], Pass(r, order, sub))
  {
    assert (subs + [sub])[..|subs|] == subs;
    assert (orders + [order])[..|orders|] == orders;
  }

  /** `r` is the map `m` after substituting `vars`, with Go visiting the keys as `orders` says. */
  ghost predicate ResolvesTo(m: map<string, string>, vars: seq<KeyValue>, orders: seq<seq<string>>,
                             r: map<string, string>)
  {
    Scheduled(m, VarSubs(vars), orders, r)
  }

  /** The pass over one more key of the visiting order. */
  lemma PassPrefixStep(m: map<string, string>, keys: seq<string>, i: nat, sub: Sub)
    requires IsEnumeration(keys, m.Keys) && i < |keys|
    ensures forall k :: k in keys[..i + 1] ==> k in m
    ensures var prev := Pass(m, keys[..i], sub);
            keys[i] in prev && Pass(m, keys[..i + 1], sub) == prev[Apply(keys[i], sub) := Apply(prev[keys[i]], sub)]
  {
    assert keys[..i + 1] == keys[..i] + [keys[i]];
    PassStep(m, keys[..i], keys[i], sub);
  }

  /** Rewrites the keys and values of one map in place (one of req.go:35-49's loops). */
  method RewriteMap(m: StringMap, sub: Sub) returns (ghost order: seq<string>)
    modifies m
    ensures IsEnumeration(order, old(m.entries).Keys)
    ensures m.entries == Pass(old(m.entries), order, sub)
  {
    ghost var m0 := m.entries;
    var keys := Keys(m.entries);
    for i := 0 to |keys|
      invariant forall k :: k in keys[..i] ==> k in m0
      invariant m.entries == Pass(m0, keys[..i], sub)
    {
      var k := keys[i];
      PassPrefixStep(m0, keys, i, sub);
      m.entries := m.entries[ReplaceAll(k, sub.token, sub.value) := ReplaceAll(m.entries[k], sub.token, sub.value)];
    }
    assert keys[..|keys|] == keys;
    order := keys;
  }

  /** The iteration orders of the four maps, pass by pass. */
  datatype KeyOrders = KeyOrders(headers: seq<seq<string>>, get: seq<seq<string>>,
                                 post: seq<seq<string>>, path: seq<seq<string>>)

  /** The iteration orders of the four maps in one pass. */
  datatype PassOrders = PassOrders(h: seq<string>, g: seq<string>, p: seq<string>, a: seq<string>)

  /** One iteration of `ResolveVars`' loop over the variables (req.go:31-49). */
  method ResolveOne(v: KeyValue, req: Req) returns (ghost o: PassOrders)
    requires req.SeparateMaps()
    modifies req`url, req`body, req.headers, req.parameters.get, req.parameters.post, req.parameters.path
    ensures var sub := Sub(Token(v.key), v.value);
            && req.url == Apply(old(req.url), sub) && req.body == Apply(old(req.body), sub)
            && IsEnumeration(o.h, old(req.headers.entries).Keys)
            && req.headers.entries == Pass(old(req.headers.entries), o.h, sub)
            && IsEnumeration(o.g, old(req.parameters.get.entries).Keys)
            && req.parameters.get.entries == Pass(old(req.parameters.get.entries), o.g, sub)
            && IsEnumeration(o.p, old(req.parameters.post.entries).Keys)
            && req.parameters.post.entries == Pass(old(req.parameters.post.entries), o.p, sub)
            && IsEnumeration(o.a, old(req.parameters.path.entries).Keys)
            && req.parameters.path.entries == Pass(old(req.parameters.path.entries), o.a, sub)
  {
    var vk := "{{" + v.key + "}}";
    var sub := Sub(vk, v.value);
    req.url := ReplaceAll(req.url, vk, v.value);
    req.body := ReplaceAll(req.body, vk, v.value);
    ghost var oh, og, op, oa;
    oh := RewriteMap(req.headers, sub);
    og := RewriteMap(req.parameters.get, sub);
    op := RewriteMap(req.parameters.post, sub);
    oa := RewriteMap(req.parameters.path, sub);
    o := PassOrders(oh, og, op, oa);
  }

  /**
   * Go's `ResolveVars`: substitutes every variable of `vars ++ env`, in that
   * order, into the URL, the body, and the keys and values of the headers
   * and of the three parameter maps, all in place.
   */
  method ResolveVars(env: seq<KeyValue>, vars: seq<KeyValue>, req: Req) returns (ghost orders: KeyOrders)
    requires req.SeparateMaps()
    modifies req`url, req`body, req.headers, req.parameters.get, req.parameters.post, req.parameters.path
    ensures req.url == Resolve(old(req.url), vars + env)
    ensures req.body == Resolve(old(req.body), vars + env)
    ensures ResolvesTo(old(req.headers.entries), vars + env, orders.headers, req.headers.entries)
    ensures ResolvesTo(old(req.parameters.get.entries), vars + env, orders.get, req.parameters.get.entries)
    ensures ResolvesTo(old(req.parameters.post.entries), vars + env, orders.post, req.parameters.post.entries)
    ensures ResolvesTo(old(req.parameters.path.entries), vars + env, orders.path, req.parameters.path.entries)
  {
    var allVars := vars + env;
    ghost var subs := VarSubs(allVars);
    ghost var h0, g0, p0, a0 := req.headers.entries, req.parameters.get.entries,
                                req.parameters.post.entries, req.parameters.path.entries;
    orders := KeyOrders([], [], [], []);
    for i := 0 to |allVars|
      invariant req.url == SubstituteAll(old(req.url), subs[..i])
      invariant req.body == SubstituteAll(old(req.body), subs[..i])
      invariant Scheduled(h0, subs[..i], orders.headers, req.headers.entries)
      invariant Scheduled(g0, subs[..i], orders.get, req.parameters.get.entries)
      invariant Scheduled(p0, subs[..i], orders.post, req.parameters.post.entries)
      invariant Scheduled(a0, subs[..i], orders.path, req.parameters.path.entries)
    {
      var v := allVars[i];
      ghost var sub := Sub(Token(v.key), v.value);
      assert subs[..i + 1] == subs[..i] + [sub];
      SubstituteAllStep(old(req.url), subs[..i], sub);
      SubstituteAllStep(old(req.body), subs[..i], sub);
      ghost var h, g, p, a := req.headers.entries, req.parameters.get.entries,
                              req.parameters.post.entries, req.parameters.path.entries;
      ghost var o := ResolveOne(v, req);
      ResolveMapStep(h0, subs[..i], orders.headers, h, sub, o.h);
      ResolveMapStep(g0, subs[..i], orders.get, g, sub, o.g);
      ResolveMapStep(p0, subs[..i], orders.post, p, sub, o.p);
      ResolveMapStep(a0, subs[..i], orders.path, a, sub, o.a);
      orders := KeyOrders(orders.headers + [o.h], orders.get + [o.g], orders.post + [o.p], orders.path + [o.a]);
    }
    assert subs[..|allVars|] == subs;
  }

  // ---------------------------------------------------------------------
  // DeepCopyReq (req.go:54-91)
  // ---------------------------------------------------------------------

  /** `for k, v := range src { dst[k] = v }`. */
  method CopyEntries(src: StringMap, dst: StringMap)
    requires src != dst
    modifies dst
    ensures dst.entries == old(dst.entries) + src.entries
  {
    ghost var d0 := dst.entries;
    var keys := Keys(src.entries);
    for i := 0 to |keys|
      invariant dst.entries.Keys == d0.Keys + (set k | k in keys[..i])
      invariant forall k :: k in keys[..i] ==> dst.entries[k] == src.entries[k]
      invariant forall k :: k in d0 && k !in keys[..i] ==> dst.entries[k] == d0[k]
    {
      var k := keys[i];
      dst.entries := dst.entries[k := src.entries[k]];
      assert keys[..i + 1] == keys[..i] + [k];
    }
    assert keys[..|keys|] == keys;
  }

  /**
   * Go's `DeepCopyReq`: nil stays nil; otherwise a new request with the same
   * strings and four newly made maps holding the same entries. It changes
   * no existing object.
   */
  method DeepCopyReq(original: Req?) returns (copy: Req?)
    ensures original == null <==> copy == null
    ensures original != null ==> fresh(copy) && fresh(copy.headers)
    ensures original != null ==>
              fresh(copy.parameters.get) && fresh(copy.parameters.post) && fresh(copy.parameters.path)
    ensures original != null ==> copy.SeparateMaps()
    ensures original != null ==>
              && copy.httpMethod == original.httpMethod && copy.url == original.url
              && copy.body == original.body && copy.contentType == original.contentType
    ensures original != null ==> copy.headers.entries == original.headers.entries
    ensures original != null ==> copy.parameters.get.entries == original.parameters.get.entries
    ensures original != null ==> copy.parameters.post.entries == original.parameters.post.entries
    ensures original != null ==> copy.parameters.path.entries == original.parameters.path.entries
  {
    if original == null {
      return null;
    }
    ghost var h0, g0, p0, a0 := original.headers.entries, original.parameters.get.entries,
                                original.parameters.post.entries, original.parameters.path.entries;
    var headers := new StringMap();
    var get := new StringMap();
    var post := new StringMap();
    var path := new StringMap();
    copy := new Req(original.httpMethod, original.url, headers, original.body,
                    original.contentType, Parameters(get, post, path));
    CopyEntries(original.headers, headers);
    EmptyUnion(h0);
    assert headers.entries == h0;
    CopyEntries(original.parameters.get, get);
    EmptyUnion(g0);
    assert get.entries == g0;
    CopyEntries(original.parameters.post, post);
    EmptyUnion(p0);
    assert post.entries == p0;
    CopyEntries(original.parameters.path, path);
    EmptyUnion(a0);
  }

  lemma EmptyUnion(m: map<string, string>)
    ensures map[] + m == m
  {
  }

  /**
   * Copy, then resolve the copy: the template keeps every field and every
   * map entry, and the copy holds the resolved request.
   */
  method ResolveCopy(env: seq<KeyValue>, vars: seq<KeyValue>, template: Req)
    returns (resolved: Req, ghost orders: KeyOrders)
    ensures fresh(resolved)
    ensures unchanged(template, template.headers, template.parameters.get,
                      template.parameters.post, template.parameters.path)
    ensures resolved.httpMethod == template.httpMethod && resolved.contentType == template.contentType
    ensures resolved.url == Resolve(template.url, vars + env)
    ensures resolved.body == Resolve(template.body, vars + env)
    ensures ResolvesTo(template.headers.entries, vars + env, orders.headers, resolved.headers.entries)
    ensures ResolvesTo(template.parameters.get.entries, vars + env, orders.get, resolved.parameters.get.entries)
    ensures ResolvesTo(template.parameters.post.entries, vars + env, orders.post, resolved.parameters.post.entries)
    ensures ResolvesTo(template.parameters.path.entries, vars + env, orders.path, resolved.parameters.path.entries)
  {
    var copy := DeepCopyReq(template);
    orders := ResolveVars(env, vars, copy);
    resolved := copy;
  }

  // ---------------------------------------------------------------------
  // What ResolveVars promises
  // ---------------------------------------------------------------------

  /** Substituting `vars ++ env` is substituting `vars` and then `env`. */
  lemma ResolveVarsBeforeEnv(s: string, vars: seq<KeyValue>, env: seq<KeyValue>)
    ensures Resolve(s, vars + env) == Resolve(Resolve(s, vars), env)
  {
    VarSubsConcat(vars, env);
    SubstituteAllConcat(s, VarSubs(vars), VarSubs(env));
  }

  /** A string without `{` holds no placeholder and is left as it is. */
  lemma ResolveWithoutBraces(s: string, vars: seq<KeyValue>)
    requires '{' !in s
    ensures Resolve(s, vars) == s
  {
    var subs := VarSubs(vars);
    forall i | 0 <= i < |subs|
      ensures subs[i].token != [] && !Contains(s, subs[i].token)
    {
      assert subs[i].token[0] == '{';
      NoHeadNoOccurrence(s, subs[i].token);
    }
    SubstituteAllAbsent(s, subs);
  }

  /** A field holding no placeholder of any of the variables is left as it is. */
  lemma ResolveWithoutTokens(s: string, vars: seq<KeyValue>)
    requires forall v :: v in vars ==> !Contains(s, Token(v.key))
    ensures Resolve(s, vars) == s
  {
    var subs := VarSubs(vars);
    forall i | 0 <= i < |subs|
      ensures subs[i].token != [] && !Contains(s, subs[i].token)
    {
      assert vars[i] in vars;
    }
    SubstituteAllAbsent(s, subs);
  }

  /**
   * When a key is defined twice, the earlier definition is the one
   * substituted: after it, the placeholder is gone.
   */
  lemma EarlierEntryWins(p: string, key: string, a: string, b: string, q: string)
    requires '{' !in p && '{' !in a && '{' !in q
    ensures Resolve(p + Token(key) + q, [KeyValue(key, a), KeyValue(key, b)]) == p + a + q
  {
    var t := Token(key);
    var subs := VarSubs([KeyValue(key, a), KeyValue(key, b)]);
    assert subs == [Sub(t, a)] + [Sub(t, b)];
    assert [Sub(t, a)] == [] + [Sub(t, a)];
    SubstituteAllStep(p + t + q, [Sub(t, a)], Sub(t, b));
    SubstituteAllStep(p + t + q, [], Sub(t, a));
    assert p + t + q == p + (t + q);
    ReplaceAllSkipsPrefix(p, t + q, t, a);
    ReplaceAllLeading(q, t, a);
    NoHeadNoOccurrence(q, t);
    ReplaceAllAbsent(q, t, a);
    assert p + (a + q) == p + a + q;
    NoHeadNoOccurrence(p + a + q, t);
    ReplaceAllAbsent(p + a + q, t, b);
  }

  /** Go's behaviour on a duplicated collection variable: `{{K}}` takes the first value. */
  lemma DuplicateKeyExample()
    ensures Resolve("/u/{{K}}", [KeyValue("K", "A"), KeyValue("K", "B")]) == "/u/A"
  {
    EarlierEntryWins("/u/", "K", "A", "B", "");
    assert "/u/" + Token("K") + "" == "/u/{{K}}";
    assert "/u/" + "A" + "" == "/u/A";
  }

  /** Substitution does not rescan its own output, but the pieces around a replaced placeholder can form a new one. */
  lemma SplicedPlaceholder()
    ensures ReplaceAll("{{{{K}}K}}", Token("K"), "") == "{{K}}"
  {
    var t := Token("K");
    var s := "{{{{K}}K}}";
    assert t == "{{K}}";
    assert s[..|t|][2] != t[2];
    assert s[1..][..|t|][2] != t[2];
    assert s[1..][1..] == t + "K}}";
    ReplaceAllLeading("K}}", t, "");
    NoHeadNoOccurrence("K}}", t);
    ReplaceAllAbsent("K}}", t, "");
  }

  /** A resolved string may still hold a placeholder of a variable that was substituted. */
  lemma ResolveCanLeavePlaceholder()
    ensures Resolve("{{{{K}}K}}", [KeyValue("K", "")]) == "{{K}}"
    ensures Contains(Resolve("{{{{K}}K}}", [KeyValue("K", "")]), Token("K"))
  {
    assert VarSubs([KeyValue("K", "")]) == [] + [Sub(Token("K"), "")];
    SubstituteAllStep("{{{{K}}K}}", [], Sub(Token("K"), ""));
    SplicedPlaceholder();
    assert OccursAt("{{K}}", Token("K"), 0);
  }

  /** No key of `keys` other than `j` itself is rewritten to `j`. */
  ghost predicate NoOtherRewritesTo(keys: set<string>, j: string, sub: Sub)
  {
    forall k :: k in keys && k != j ==> Apply(k, sub) != j
  }

  lemma {:induction false} PassPrefixKeepsValue(m: map<string, string>, order: seq<string>, sub: Sub, k: string)
    requires forall j :: j in order ==> j in m
    requires forall i, j :: 0 <= i < j < |order| ==> order[i] != order[j]
    requires k in m && NoOtherRewritesTo(m.Keys, k, sub)
    ensures k in Pass(m, order, sub)
    ensures Pass(m, order, sub)[k] == if k in order && Apply(k, sub) == k then Apply(m[k], sub) else m[k]
    decreases |order|
  {
    if order != [] {
      var init := order[..|order| - 1];
      var last := order[|order| - 1];
      assert order == init + [last];
      PassPrefixKeepsValue(m, init, sub, k);
      PassStep(m, init, last, sub);
    }
  }

  /**
   * A key that no other key is rewritten to survives a pass: its value is
   * rewritten when the key rewrites to itself, and otherwise kept as it was
   * (the rewritten value went to the new key).
   */
  lemma PassKeepsValue(m: map<string, string>, order: seq<string>, sub: Sub, k: string)
    requires IsEnumeration(order, m.Keys)
    requires k in m && NoOtherRewritesTo(m.Keys, k, sub)
    ensures k in Pass(m, order, sub)
    ensures Pass(m, order, sub)[k] == if Apply(k, sub) == k then Apply(m[k], sub) else m[k]
  {
    PassPrefixKeepsValue(m, order, sub, k);
  }

  /** A visit to a key whose rewritten form is not `j` leaves the value at `j` alone. */
  lemma PassOtherVisit(m: map<string, string>, init: seq<string>, last: string, sub: Sub, j: string)
    requires forall x :: x in init ==> x in m
    requires last in m && j in Pass(m, init, sub) && Apply(last, sub) != j
    ensures Pass(m, init + [last], sub)[j] == Pass(m, init, sub)[j]
  {
    PassStep(m, init, last, sub);
  }

  lemma {:induction false} PassPrefixNewKey(m: map<string, string>, order: seq<string>, sub: Sub, k: string)
    requires forall j :: j in order ==> j in m
    requires forall i, j :: 0 <= i < j < |order| ==> order[i] != order[j]
    requires k in m && NoOtherRewritesTo(m.Keys, k, sub)
    requires forall j :: j in m && j != k ==> Apply(j, sub) != Apply(k, sub)
    ensures k in order ==> Pass(m, order, sub)[Apply(k, sub)] == Apply(m[k], sub)
    decreases |order|
  {
    if k in order {
      var init := order[..|order| - 1];
      var last := order[|order| - 1];
      assert order == init + [last];
      if last == k {
        assert k !in init;
        PassPrefixKeepsValue(m, init, sub, k);
        PassStep(m, init, last, sub);
      } else {
        assert k in init;
        PassPrefixNewKey(m, init, sub, k);
        PassOtherVisit(m, init, last, sub, Apply(k, sub));
      }
    }
  }

  /**
   * When no other key rewrites to `k` or to the rewritten form of `k`, the
   * rewritten key holds the rewritten value after a pass.
   */
  lemma PassNewKey(m: map<string, string>, order: seq<string>, sub: Sub, k: string)
    requires IsEnumeration(order, m.Keys)
    requires k in m && NoOtherRewritesTo(m.Keys, k, sub)
    requires forall j :: j in m && j != k ==> Apply(j, sub) != Apply(k, sub)
    ensures Apply(k, sub) in Pass(m, order, sub)
    ensures Pass(m, order, sub)[Apply(k, sub)] == Apply(m[k], sub)
  {
    PassPrefixNewKey(m, order, sub, k);
  }

  /** A map whose keys the step leaves alone gets its values rewritten and nothing else. */
  lemma PassPlainKeys(m: map<string, string>, order: seq<string>, sub: Sub)
    requires IsEnumeration(order, m.Keys)
    requires forall k :: k in m ==> Apply(k, sub) == k
    ensures Pass(m, order, sub).Keys == m.Keys
    ensures forall k :: k in m ==> Pass(m, order, sub)[k] == Apply(m[k], sub)
  {
    forall k | k in m
      ensures Pass(m, order, sub)[k] == Apply(m[k], sub)
    {
      PassKeepsValue(m, order, sub, k);
    }
  }

  /** The rewriting steps behind `PassDependsOnOrder`. */
  lemma SplicedApplications()
    ensures Apply(Token("K"), Sub(Token("K"), "")) == ""
    ensures Apply("", Sub(Token("K"), "")) == ""
    ensures Apply("{{{{K}}K}}", Sub(Token("K"), "")) == Token("K")
  {
    var t := Token("K");
    SplicedPlaceholder();
    ReplaceAllLeading("", t, "");
    assert t + "" == t;
  }

  /** Visiting `{{K}}` first: its rewrite to `""` is then rewritten once more. */
  lemma PlaceholderVisitedFirst(m: map<string, string>)
    requires m == map[Token("K") := "{{{{K}}K}}", "" := "z"]
    ensures Pass(m, [Token("K"), ""], Sub(Token("K"), ""))[""] == ""
  {
    var t := Token("K");
    var sub := Sub(t, "");
    SplicedApplications();
    assert [] + [t] == [t] && [t] + [""] == [t, ""];
    PassStep(m, [], t, sub);
    PassStep(m, [t], "", sub);
  }

  /** Visiting `""` first: the rewrite of `{{K}}` lands last. */
  lemma EmptyKeyVisitedFirst(m: map<string, string>)
    requires m == map[Token("K") := "{{{{K}}K}}", "" := "z"]
    ensures Pass(m, ["", Token("K")], Sub(Token("K"), ""))[""] == Token("K")
  {
    var t := Token("K");
    var sub := Sub(t, "");
    SplicedApplications();
    assert [] + [""] == [""] && [""] + [t] == ["", t];
    PassStep(m, [], "", sub);
    PassStep(m, [""], t, sub);
  }

  /**
   * The observable values of one pass depend on the order in which Go visits
   * the keys: visiting `{{K}}` first leaves `""` at `""`, visiting `""` first
   * leaves `{{K}}` there.
   */
  lemma PassDependsOnOrder(m: map<string, string>)
    requires m == map[Token("K") := "{{{{K}}K}}", "" := "z"]
    ensures IsEnumeration([Token("K"), ""], m.Keys) && IsEnumeration(["", Token("K")], m.Keys)
    ensures Pass(m, [Token("K"), ""], Sub(Token("K"), ""))[""]
            != Pass(m, ["", Token("K")], Sub(Token("K"), ""))[""]
  {
    var t := Token("K");
    assert m.Keys == {t, ""};
    assert t != "";
    TwoKeyEnumerations(t, "");
    PlaceholderVisitedFirst(m);
    EmptyKeyVisitedFirst(m);
  }

  lemma TwoKeyEnumerations(x: string, y: string)
    requires x != y
    ensures IsEnumeration([x, y], {x, y}) && IsEnumeration([y, x], {x, y})
  {
  }

  /** The keys after the passes of `subs`, whatever order each pass visits them in. */
  ghost function KeysAfter(keys: set<string>, subs: seq<Sub>): set<string>
    decreases |subs|
  {
    if subs == [] then keys
    else
      var prev := KeysAfter(keys, subs[..|subs| - 1]);
      prev + set k | k in prev :: Apply(k, subs[|subs| - 1])
  }

  lemma SameImage(order: seq<string>, keys: set<string>, sub: Sub)
    requires IsEnumeration(order, keys)
    ensures (set k | k in order :: Apply(k, sub)) == (set k | k in keys :: Apply(k, sub))
  {
  }

  /** The key set after resolution does not depend on the iteration orders. */
  lemma {:induction false} ResolveMapKeys(m: map<string, string>, subs: seq<Sub>, orders: seq<seq<string>>)
    requires IsSchedule(m, subs, orders)
    ensures ResolveMap(m, subs, orders).Keys == KeysAfter(m.Keys, subs)
    decreases |subs|
  {
    if subs != [] {
      var init, inito := subs[..|subs| - 1], orders[..|orders| - 1];
      var order := orders[|orders| - 1];
      var sub := subs[|subs| - 1];
      ResolveMapKeys(m, init, inito);
      var prev := ResolveMap(m, init, inito);
      SameImage(order, prev.Keys, sub);
    }
  }

  /**
   * Rewriting never deletes: every original key is still present, and so is
   * the key with every substitution applied to it.
   */
  lemma {:induction false} ResolveMapKeepsKeys(m: map<string, string>, subs: seq<Sub>, orders: seq<seq<string>>,
                                               k: string)
    requires IsSchedule(m, subs, orders)
    requires k in m
    ensures k in ResolveMap(m, subs, orders)
    ensures SubstituteAll(k, subs) in ResolveMap(m, subs, orders)
    decreases |subs|
  {
    if subs != [] {
      var init, inito := subs[..|subs| - 1], orders[..|orders| - 1];
      ResolveMapKeepsKeys(m, init, inito, k);
      var prev := ResolveMap(m, init, inito);
      assert SubstituteAll(k, init) in orders[|orders| - 1];
      SubstituteAllStep(k, init, subs[|subs| - 1]);
      assert init + [subs[|subs| - 1]] == subs;
    }
  }

  /** No token of `subs` occurs in any of `keys`, and none is empty. */
  ghost predicate TokenFree(keys: set<string>, subs: seq<Sub>)
  {
    forall i, k :: 0 <= i < |subs| && k in keys ==> subs[i].token != [] && !Contains(k, subs[i].token)
  }

  /** Dropping the last step keeps a key set token-free, and the last step's token is absent too. */
  lemma TokenFreeInit(keys: set<string>, subs: seq<Sub>)
    requires TokenFree(keys, subs) && subs != []
    ensures TokenFree(keys, subs[..|subs| - 1])
    ensures var sub := subs[|subs| - 1];
            forall k :: k in keys ==> sub.token != [] && !Contains(k, sub.token)
  {
    var init := subs[..|subs| - 1];
    forall i, k | 0 <= i < |init| && k in keys
      ensures init[i].token != [] && !Contains(k, init[i].token)
    {
      assert init[i] == subs[i];
    }
    var last := |subs| - 1;
    forall k | k in keys
      ensures subs[last].token != [] && !Contains(k, subs[last].token)
    {
      assert 0 <= last < |subs| && k in keys;
    }
  }

  /** One more pass over a map whose keys hold no token of the step. */
  lemma PlainPassStep(prev: map<string, string>, m: map<string, string>, init: seq<Sub>, sub: Sub,
                      order: seq<string>)
    requires IsEnumeration(order, prev.Keys) && prev.Keys == m.Keys
    requires forall k :: k in m ==> prev[k] == SubstituteAll(m[k], init)
    requires forall k :: k in m ==> sub.token != [] && !Contains(k, sub.token)
    ensures Pass(prev, order, sub).Keys == m.Keys
    ensures forall k :: k in m ==> Pass(prev, order, sub)[k] == SubstituteAll(m[k], init + [sub])
  {
    forall k | k in prev
      ensures Apply(k, sub) == k
    {
      ReplaceAllAbsent(k, sub.token, sub.value);
    }
    PassPlainKeys(prev, order, sub);
    forall k | k in m
      ensures Apply(prev[k], sub) == SubstituteAll(m[k], init + [sub])
    {
      SubstituteAllStep(m[k], init, sub);
    }
  }

  /**
   * A map whose keys hold no placeholder keeps exactly its keys, and every
   * value is substituted in full, whatever orders Go visits the keys in.
   */
  lemma {:induction false} ResolveMapPlainKeys(m: map<string, string>, subs: seq<Sub>, orders: seq<seq<string>>)
    requires IsSchedule(m, subs, orders)
    requires TokenFree(m.Keys, subs)
    ensures ResolveMap(m, subs, orders).Keys == m.Keys
    ensures forall k :: k in m ==> ResolveMap(m, subs, orders)[k] == SubstituteAll(m[k], subs)
    decreases |subs|
  {
    if subs != [] {
      var init, inito := subs[..|subs| - 1], orders[..|orders| - 1];
      TokenFreeInit(m.Keys, subs);
      ResolveMapPlainKeys(m, init, inito);
      var sub := subs[|subs| - 1];
      PlainPassStep(ResolveMap(m, init, inito), m, init, sub, orders[|orders| - 1]);
      assert init + [sub] == subs;
    }
  }

  /**
   * `ResolveVars` on a header or parameter map never deletes a key, and adds
   * the resolved form of each.
   */
  lemma ResolvedMapKeys(m: map<string, string>, vars: seq<KeyValue>, orders: seq<seq<string>>,
                        r: map<string, string>, k: string)
    requires ResolvesTo(m, vars, orders, r)
    requires k in m
    ensures k in r && Resolve(k, vars) in r
  {
    ResolveMapKeepsKeys(m, VarSubs(vars), orders, k);
  }

  /**
   * `ResolveVars` on a map whose keys hold no `{`: the map keeps exactly its
   * keys and each value is resolved in full, whatever orders Go visits the
   * keys in.
   */
  lemma ResolvedPlainMap(m: map<string, string>, vars: seq<KeyValue>, orders: seq<seq<string>>,
                         r: map<string, string>)
    requires ResolvesTo(m, vars, orders, r)
    requires forall k :: k in m ==> '{' !in k
    ensures r.Keys == m.Keys
    ensures forall k :: k in m ==> r[k] == Resolve(m[k], vars)
  {
    var subs := VarSubs(vars);
    forall i, k | 0 <= i < |subs| && k in m
      ensures subs[i].token != [] && !Contains(k, subs[i].token)
    {
      assert subs[i].token[0] == '{';
      NoHeadNoOccurrence(k, subs[i].token);
    }
    ResolveMapPlainKeys(m, subs, orders);
  }
}
