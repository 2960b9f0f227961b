/** The rate limiter's bucket keys. */
module RateKey {
  import opened Prelude

  datatype Scope = TenantScope(id: string) | IpScope(address: string)

  datatype Route = Route(verb: string, path: string)

  /** What a request is counted under; route-specific limits add the route. */
  datatype Bucket = Bucket(scope: Scope, route: Option<Route>)

  /** The parts of a request the guard reads. An empty tenant id counts as none. */
  datatype Request = Request(userTenant: Option<string>, ip: string, verb: string, path: string)

  function BucketOf(req: Request, routeSpecific: bool): Bucket {
    Bucket(
      if req.userTenant.Some? && req.userTenant.value != "" then TenantScope(req.userTenant.value) else IpScope(req.ip),
      if routeSpecific then Some(Route(req.verb, req.path)) else None)
  }

  function ScopeText(scope: Scope): string {
    match scope
    case TenantScope(id) => "tenant:" + id
    case IpScope(address) => "ip:" + address
  }

  function KeyOf(b: Bucket): string {
    match b.route
    case None => "ratelimit:" + ScopeText(b.scope)
    case Some(Route(verb, path)) => "ratelimit:" + ScopeText(b.scope) + ":" + verb + ":" + path
  }

  function ResolveKey(req: Request, routeSpecific: bool): string {
    KeyOf(BucketOf(req, routeSpecific))
  }

  predicate Lacks(s: string, c: char) {
    forall k | 0 <= k < |s| :: s[k] != c
  }

  /** Tenant ids and addresses have no slash; verbs have neither slash nor colon; paths start with a slash. */
  predicate WellFormed(b: Bucket) {
    && Lacks(match b.scope case TenantScope(id) => id case IpScope(address) => address, '/')
    && (b.route.Some? ==>
          && Lacks(b.route.value.verb, '/') && Lacks(b.route.value.verb, ':')
          && b.route.value.path != "" && b.route.value.path[0] == '/')
  }

  /** The first slash separates. */
  lemma SplitAtFirstSlash(h1: string, p1: string, h2: string, p2: string)
    requires Lacks(h1, '/') && Lacks(h2, '/')
    requires p1 != "" && p1[0] == '/' && p2 != "" && p2[0] == '/'
    requires h1 + p1 == h2 + p2
    ensures h1 == h2 && p1 == p2
  {
    assert (h1 + p1)[|h1|] == '/' && (h2 + p2)[|h2|] == '/';
    assert |h1| == |h2|;
    assert h1 == (h1 + p1)[..|h1|] && h2 == (h2 + p2)[..|h2|];
    assert p1 == (h1 + p1)[|h1|..] && p2 == (h2 + p2)[|h2|..];
  }

  /** The last colon separates. */
  lemma SplitAtLastColon(x1: string, v1: string, x2: string, v2: string)
    requires Lacks(v1, ':') && Lacks(v2, ':')
    requires x1 + ":" + v1 == x2 + ":" + v2
    ensures x1 == x2 && v1 == v2
  {
    var s1, s2 := x1 + ":" + v1, x2 + ":" + v2;
    assert s1[|x1|] == ':' && s2[|x2|] == ':';
    assert |x1| == |x2|;
    assert x1 == s1[..|x1|] && x2 == s2[..|x2|];
    assert v1 == s1[|x1| + 1..] && v2 == s2[|x2| + 1..];
  }

  lemma ScopeTextInjective(a: Scope, b: Scope)
    requires "ratelimit:" + ScopeText(a) == "ratelimit:" + ScopeText(b)
    ensures a == b
  {
    var r, x, y := "ratelimit:", ScopeText(a), ScopeText(b);
    assert x == (r + x)[|r|..] && y == (r + y)[|r|..];
    assert x[0] == y[0];
    match a
    case TenantScope(id) => assert id == x[7..] && b.id == y[7..];
    case IpScope(address) => assert address == x[3..] && b.address == y[3..];
  }

  /** What precedes the path in a route-specific key. */
  function Head(b: Bucket): string
    requires b.route.Some?
  {
    "ratelimit:" + ScopeText(b.scope) + ":" + b.route.value.verb + ":"
  }

  lemma KeyLayout(b: Bucket)
    requires WellFormed(b)
    ensures b.route.None? ==> Lacks(KeyOf(b), '/')
    ensures b.route.Some? ==>
      KeyOf(b) == Head(b) + b.route.value.path && Lacks(Head(b), '/') && KeyOf(b)[|Head(b)|] == '/'
  {
    assert Lacks("ratelimit:" + ScopeText(b.scope), '/');
  }

  /** Different buckets never share a counter. Addresses may contain colons. */
  lemma KeyInjective(a: Bucket, b: Bucket)
    requires WellFormed(a) && WellFormed(b) && KeyOf(a) == KeyOf(b)
    ensures a == b
  {
    KeyLayout(a);
    KeyLayout(b);
    if a.route.Some? && b.route.Some? {
      SplitAtFirstSlash(Head(a), a.route.value.path, Head(b), b.route.value.path);
      var x, y := "ratelimit:" + ScopeText(a.scope), "ratelimit:" + ScopeText(b.scope);
      var v, w := a.route.value.verb, b.route.value.verb;
      assert x + ":" + v == Head(a)[..|Head(a)| - 1] && y + ":" + w == Head(b)[..|Head(b)| - 1];
      SplitAtLastColon(x, v, y, w);
    }
    ScopeTextInjective(a.scope, b.scope);
  }

  /** Requests are counted together exactly when they fall into the same bucket. */
  lemma ResolveKeyIffSameBucket(r: Request, rs: bool, q: Request, qs: bool)
    requires WellFormed(BucketOf(r, rs)) && WellFormed(BucketOf(q, qs))
    ensures ResolveKey(r, rs) == ResolveKey(q, qs) <==> BucketOf(r, rs) == BucketOf(q, qs)
  {
    if ResolveKey(r, rs) == ResolveKey(q, qs) {
      KeyInjective(BucketOf(r, rs), BucketOf(q, qs));
    }
  }

  // ---- Which requests share a counter ------------------------------------------------

  predicate HasTenant(req: Request) {
    req.userTenant.Some? && req.userTenant.value != ""
  }

  /** The conditions on the parts of a request that its key is made of. */
  predicate Plain(req: Request) {
    && Lacks(if HasTenant(req) then req.userTenant.value else req.ip, '/')
    && Lacks(req.verb, '/') && Lacks(req.verb, ':')
    && req.path != "" && req.path[0] == '/'
  }

  /** Signed-in requests count by tenant, wherever they come from; others by address. */
  predicate SameOrigin(r: Request, q: Request) {
    if HasTenant(r) then q.userTenant == r.userTenant else !HasTenant(q) && q.ip == r.ip
  }

  /**
   Two requests share a counter if and only if they come from the same tenant, or both
   without one from the same address, and are counted alike: both together with all
   default-limited routes, or both on the same limited route.
   */
  lemma SameCounterIff(r: Request, rs: bool, q: Request, qs: bool)
    requires Plain(r) && Plain(q)
    ensures ResolveKey(r, rs) == ResolveKey(q, qs)
      <==> SameOrigin(r, q) && rs == qs && (rs ==> r.verb == q.verb && r.path == q.path)
  {
    ResolveKeyIffSameBucket(r, rs, q, qs);
  }

  /** The keys as text. */
  lemma KeyTexts(req: Request)
    ensures var origin := if HasTenant(req) then "tenant:" + req.userTenant.value else "ip:" + req.ip;
      && ResolveKey(req, false) == "ratelimit:" + origin
      && ResolveKey(req, true) == "ratelimit:" + origin + ":" + req.verb + ":" + req.path
  {
  }

  /** Without the conditions keys collide: an address with a slash can imitate any route-specific key. */
  lemma SlashedAddressCollides(address: string, route: Route)
    ensures var plain := Bucket(IpScope(address + ":" + route.verb + ":" + route.path), None);
            var routed := Bucket(IpScope(address), Some(route));
            plain != routed && KeyOf(plain) == KeyOf(routed)
  {
    var tail := ":" + route.verb + ":" + route.path;
    assert "ratelimit:" + ("ip:" + (address + ":" + route.verb + ":" + route.path))
        == "ratelimit:" + ("ip:" + address) + ":" + route.verb + ":" + route.path;
  }
}
