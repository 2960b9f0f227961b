/**
 The limiter end to end: requests with their route's options, counted under the
 keys `resolveKey` builds, and the bound that follows for each tenant or address.
 */
module RateBuckets {
  import opened Prelude
  import opened RateKey
  import opened RateLimit

  datatype Options = Options(limit: nat, window: Positive)

  const DEFAULT_OPTIONS := Options(300, 60)

  /** Options declared on routes; every other route has the default ones. */
  type Rules = map<Route, Options>

  datatype Arrival = Arrival(at: nat, req: RateKey.Request, lost: Option<bool>)

  function Override(rules: Rules, req: RateKey.Request): Option<Options> {
    var route := Route(req.verb, req.path);
    if route in rules then Some(rules[route]) else None
  }

  function HitOf(rules: Rules, a: Arrival): Hit {
    var override := Override(rules, a.req);
    var options := if override.Some? then override.value else DEFAULT_OPTIONS;
    Hit(a.at, ResolveKey(a.req, override.Some?), options.limit, options.window, a.lost)
  }

  function HitsOf(rules: Rules, arrivals: seq<Arrival>): (hits: seq<Hit>)
    ensures |hits| == |arrivals|
    ensures forall k | 0 <= k < |hits| :: hits[k] == HitOf(rules, arrivals[k])
  {
    if arrivals == [] then [] else [HitOf(rules, arrivals[0])] + HitsOf(rules, arrivals[1..])
  }

  /** The bucket an arrival is meant to be counted in. */
  function Counts(rules: Rules, a: Arrival): Bucket {
    BucketOf(a.req, Override(rules, a.req).Some?)
  }

  /** The options that govern a bucket. */
  function OptionsOf(rules: Rules, b: Bucket): Options {
    if b.route.Some? && b.route.value in rules then rules[b.route.value] else DEFAULT_OPTIONS
  }

  /** Admitted arrivals of bucket `b` between two instants. */
  function AdmittedIn(rules: Rules, arrivals: seq<Arrival>, ds: seq<Decision>, bucket: Bucket, a: int, b: int): nat
    requires |ds| == |arrivals|
  {
    if arrivals == [] then 0
    else (if Counts(rules, arrivals[0]) == bucket && a <= arrivals[0].at < b && ds[0].Admitted? then 1 else 0)
         + AdmittedIn(rules, arrivals[1..], ds[1..], bucket, a, b)
  }

  ghost predicate Ordered(arrivals: seq<Arrival>) {
    forall j, k | 0 <= j < k < |arrivals| :: arrivals[j].at <= arrivals[k].at
  }

  /** Counting by key is counting by bucket. */
  lemma {:induction false} CountedByKey(rules: Rules, arrivals: seq<Arrival>, ds: seq<Decision>, bucket: Bucket,
      a: int, b: int)
    requires |ds| == |arrivals| && WellFormed(bucket)
    requires forall k | 0 <= k < |arrivals| :: WellFormed(Counts(rules, arrivals[k]))
    ensures AdmissionsFor(HitsOf(rules, arrivals), ds, KeyOf(bucket), a, b)
         == AdmittedIn(rules, arrivals, ds, bucket, a, b)
    decreases |arrivals|
  {
    if arrivals == [] {
    } else {
      var hits := HitsOf(rules, arrivals);
      assert hits[1..] == HitsOf(rules, arrivals[1..]);
      CountedByKey(rules, arrivals[1..], ds[1..], bucket, a, b);
      assert WellFormed(Counts(rules, arrivals[0]));
      if KeyOf(Counts(rules, arrivals[0])) == KeyOf(bucket) { KeyInjective(Counts(rules, arrivals[0]), bucket); }
    }
  }

  /** All hits under one key carry the options of its bucket. */
  lemma OneSetOfOptions(rules: Rules, arrival: Arrival, bucket: Bucket)
    requires WellFormed(bucket) && WellFormed(Counts(rules, arrival))
    requires HitOf(rules, arrival).key == KeyOf(bucket)
    ensures HitOf(rules, arrival).limit == OptionsOf(rules, bucket).limit
    ensures HitOf(rules, arrival).window == OptionsOf(rules, bucket).window
  {
    KeyInjective(Counts(rules, arrival), bucket);
  }

  lemma {:induction false} OnKeyBucketed(hits: seq<Hit>, key: string, limit: nat, window: nat, from: nat)
    requires forall k | 0 <= k < |hits| && hits[k].key == key :: hits[k].limit == limit && hits[k].window == window
    requires forall k | 0 <= k < |hits| :: from <= hits[k].at
    requires forall j, k | 0 <= j < k < |hits| :: hits[j].at <= hits[k].at
    ensures Bucketed(OnKey(hits, key), limit, window, from)
    decreases |hits|
  {
    if hits == [] {
    } else {
      OnKeyBucketed(hits[1..], key, limit, window, hits[0].at);
    }
  }

  /**
   Whatever traffic all tenants and addresses send over all routes: in any half-open
   interval one tenant or address is admitted to one limited route, or to the
   default-limited routes together, at most the peak of those options' counted times.
   */
  lemma BucketBound(rules: Rules, arrivals: seq<Arrival>, bucket: Bucket, a: nat, b: int)
    requires Ordered(arrivals) && WellFormed(bucket)
    requires forall j | 0 <= j < |arrivals| :: WellFormed(Counts(rules, arrivals[j]))
    ensures var Options(limit, window) := OptionsOf(rules, bucket);
      AdmittedIn(rules, arrivals, Decisions(map[], HitsOf(rules, arrivals)), bucket, a, b) <= Peak(limit, window, a, b)
  {
    var Options(limit, window) := OptionsOf(rules, bucket);
    var hits := HitsOf(rules, arrivals);
    forall j | 0 <= j < |hits| && hits[j].key == KeyOf(bucket)
      ensures hits[j].limit == limit && hits[j].window == window
    {
      assert WellFormed(Counts(rules, arrivals[j]));
      OneSetOfOptions(rules, arrivals[j], bucket);
    }
    OnKeyBucketed(hits, KeyOf(bucket), limit, window, 0);
    RateBound(hits, KeyOf(bucket), limit, window, a, b);
    CountedByKey(rules, arrivals, Decisions(map[], hits), bucket, a, b);
  }

  /** So any k windows see at most (k + 1) * limit - 1 counted admissions. */
  lemma BucketBoundInWindows(rules: Rules, arrivals: seq<Arrival>, bucket: Bucket, a: nat, k: nat)
    requires Ordered(arrivals) && WellFormed(bucket)
    requires forall j | 0 <= j < |arrivals| :: WellFormed(Counts(rules, arrivals[j]))
    ensures var Options(limit, window) := OptionsOf(rules, bucket);
      AdmittedIn(rules, arrivals, Decisions(map[], HitsOf(rules, arrivals)), bucket, a, a + k * (1000 * window))
      <= OneFewerThan((k + 1) * limit)
  {
    var Options(limit, window) := OptionsOf(rules, bucket);
    BucketBound(rules, arrivals, bucket, a, a + k * (1000 * window));
    PeakOfWindows(limit, window, a, k);
  }

  // ---- By origin and route -------------------------------------------------------------

  /** Requests of one tenant, or of one address without a tenant. */
  predicate From(req: RateKey.Request, origin: Scope) {
    match origin
    case TenantScope(id) => id != "" && req.userTenant == Some(id)
    case IpScope(address) => !HasTenant(req) && req.ip == address
  }

  predicate On(req: RateKey.Request, route: Route) {
    req.verb == route.verb && req.path == route.path
  }

  /** Admitted arrivals of the requests `which` picks. */
  function AdmittedWhere(arrivals: seq<Arrival>, ds: seq<Decision>, which: RateKey.Request -> bool, a: int, b: int): nat
    requires |ds| == |arrivals|
  {
    if arrivals == [] then 0
    else (if which(arrivals[0].req) && a <= arrivals[0].at < b && ds[0].Admitted? then 1 else 0)
         + AdmittedWhere(arrivals[1..], ds[1..], which, a, b)
  }

  lemma {:induction false} WhereIsBucket(rules: Rules, arrivals: seq<Arrival>, ds: seq<Decision>,
      which: RateKey.Request -> bool, bucket: Bucket, a: int, b: int)
    requires |ds| == |arrivals|
    requires forall k | 0 <= k < |arrivals| :: which(arrivals[k].req) <==> Counts(rules, arrivals[k]) == bucket
    ensures AdmittedWhere(arrivals, ds, which, a, b) == AdmittedIn(rules, arrivals, ds, bucket, a, b)
    decreases |arrivals|
  {
    if arrivals == [] {
    } else {
      WhereIsBucket(rules, arrivals[1..], ds[1..], which, bucket, a, b);
    }
  }

  /** Traffic in order of time whose requests meet the conditions keys rely on. */
  ghost predicate Traffic(arrivals: seq<Arrival>) {
    Ordered(arrivals) && forall k | 0 <= k < |arrivals| :: Plain(arrivals[k].req)
  }

  lemma PlainCounts(rules: Rules, a: Arrival)
    requires Plain(a.req)
    ensures WellFormed(Counts(rules, a))
  {
  }

  /** Whatever all others send: what one tenant or address is admitted to one limited route. */
  lemma LimitedRouteBound(rules: Rules, arrivals: seq<Arrival>, origin: Scope, route: Route, a: nat, b: int)
    requires Traffic(arrivals) && route in rules
    ensures AdmittedWhere(arrivals, Decisions(map[], HitsOf(rules, arrivals)),
                          req => From(req, origin) && On(req, route), a, b)
         <= Peak(rules[route].limit, rules[route].window, a, b)
  {
    var which := (req: RateKey.Request) => From(req, origin) && On(req, route);
    BoundWhere(rules, arrivals, which, Bucket(origin, Some(route)), a, b);
  }

  /** And to all routes without a limit of their own together: 300 in 60 seconds. */
  lemma DefaultBound(rules: Rules, arrivals: seq<Arrival>, origin: Scope, a: nat, b: int)
    requires Traffic(arrivals)
    ensures AdmittedWhere(arrivals, Decisions(map[], HitsOf(rules, arrivals)),
                          req => From(req, origin) && Route(req.verb, req.path) !in rules, a, b)
         <= Peak(300, 60, a, b)
  {
    var which := (req: RateKey.Request) => From(req, origin) && Route(req.verb, req.path) !in rules;
    BoundWhere(rules, arrivals, which, Bucket(origin, None), a, b);
  }

  /** So any k minutes see at most 300 * (k + 1) - 1 of them. */
  lemma DefaultBoundInMinutes(rules: Rules, arrivals: seq<Arrival>, origin: Scope, a: nat, k: nat)
    requires Traffic(arrivals)
    ensures AdmittedWhere(arrivals, Decisions(map[], HitsOf(rules, arrivals)),
                          req => From(req, origin) && Route(req.verb, req.path) !in rules, a, a + k * 60_000)
         <= (k + 1) * 300 - 1
  {
    DefaultBound(rules, arrivals, origin, a, a + k * 60_000);
    PeakOfWindows(300, 60, a, k);
  }

  lemma {:induction false} NobodyAdmitted(arrivals: seq<Arrival>, ds: seq<Decision>, which: RateKey.Request -> bool,
      a: int, b: int)
    requires |ds| == |arrivals| && forall k | 0 <= k < |arrivals| :: !which(arrivals[k].req)
    ensures AdmittedWhere(arrivals, ds, which, a, b) == 0
    decreases |arrivals|
  {
    if arrivals == [] {
    } else {
      NobodyAdmitted(arrivals[1..], ds[1..], which, a, b);
    }
  }

  lemma BoundWhere(rules: Rules, arrivals: seq<Arrival>, which: RateKey.Request -> bool, bucket: Bucket, a: nat, b: int)
    requires Traffic(arrivals)
    requires forall k | 0 <= k < |arrivals| :: which(arrivals[k].req) ==> Counts(rules, arrivals[k]) == bucket
    requires forall k | 0 <= k < |arrivals| :: Counts(rules, arrivals[k]) == bucket ==> which(arrivals[k].req)
    ensures var Options(limit, window) := OptionsOf(rules, bucket);
      AdmittedWhere(arrivals, Decisions(map[], HitsOf(rules, arrivals)), which, a, b) <= Peak(limit, window, a, b)
  {
    var ds := Decisions(map[], HitsOf(rules, arrivals));
    forall k | 0 <= k < |arrivals|
      ensures WellFormed(Counts(rules, arrivals[k]))
    {
      PlainCounts(rules, arrivals[k]);
    }
    if k :| 0 <= k < |arrivals| && which(arrivals[k].req) {
      WhereIsBucket(rules, arrivals, ds, which, bucket, a, b);
      BucketBound(rules, arrivals, bucket, a, b);
    } else {
      NobodyAdmitted(arrivals, ds, which, a, b);
    }
  }
}
