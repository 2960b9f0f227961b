/**
 The fixed-window rate limiter: the Lua script on a store of expiring counters,
 the guard's decision, and what both amount to over whole arrival traces.

 Time is in milliseconds. The store keeps a key while the clock has not passed its
 deadline, and runs the script atomically.
 */
module RateLimit {
  import opened Prelude

  type Positive = n: nat | 0 < n witness 1

  /** A stored counter: at least one hit, and a deadline set by the first. */
  datatype Counter = Counter(count: Positive, deadline: int)

  type Store = map<string, Counter>

  predicate Live(c: Option<Counter>, now: int) {
    c.Some? && now <= c.value.deadline
  }

  function Get(store: Store, key: string): Option<Counter> {
    if key in store then Some(store[key]) else None
  }

  /** The script: increment; the first increment of a window sets the expiry. */
  function Bump(c: Option<Counter>, window: nat, now: nat): Counter {
    if Live(c, now) then Counter(c.value.count + 1, c.value.deadline) else Counter(1, now + 1000 * window)
  }

  /**
   One guarded request. `lost` marks a script call whose reply never came, and
   says whether the store had run it; the guard then lets the request through
   uncounted.
   */
  datatype Hit = Hit(at: nat, key: string, limit: nat, window: nat, lost: Option<bool>)

  datatype Decision = Admitted(remaining: nat) | Rejected | FailedOpen

  function Verdict(hit: Hit, current: nat): Decision {
    if hit.lost.Some? then FailedOpen
    else if current > hit.limit then Rejected
    else Admitted(hit.limit - current)
  }

  /** A counter of its own for one key. */
  function CounterAfter(c: Option<Counter>, hit: Hit): Option<Counter> {
    if hit.lost == Some(false) then c else Some(Bump(c, hit.window, hit.at))
  }

  function DecideAlone(c: Option<Counter>, hit: Hit): Decision {
    Verdict(hit, Bump(c, hit.window, hit.at).count)
  }

  function StoreAfter(store: Store, hit: Hit): Store {
    if hit.lost == Some(false) then store else store[hit.key := Bump(Get(store, hit.key), hit.window, hit.at)]
  }

  function Decide(store: Store, hit: Hit): Decision {
    Verdict(hit, Bump(Get(store, hit.key), hit.window, hit.at).count)
  }

  function Decisions(store: Store, hits: seq<Hit>): (ds: seq<Decision>)
    ensures |ds| == |hits|
    decreases |hits|
  {
    if hits == [] then [] else [Decide(store, hits[0])] + Decisions(StoreAfter(store, hits[0]), hits[1..])
  }

  function DecisionsAlone(c: Option<Counter>, hits: seq<Hit>): (ds: seq<Decision>)
    ensures |ds| == |hits|
    decreases |hits|
  {
    if hits == [] then [] else [DecideAlone(c, hits[0])] + DecisionsAlone(CounterAfter(c, hits[0]), hits[1..])
  }

  // ---- Keys do not interfere -------------------------------------------------------

  function OnKey(hits: seq<Hit>, key: string): seq<Hit> {
    if hits == [] then []
    else (if hits[0].key == key then [hits[0]] else []) + OnKey(hits[1..], key)
  }

  /** The decisions made for one key, in order. */
  function ForKey(hits: seq<Hit>, ds: seq<Decision>, key: string): seq<Decision>
    requires |ds| == |hits|
  {
    if hits == [] then []
    else (if hits[0].key == key then [ds[0]] else []) + ForKey(hits[1..], ds[1..], key)
  }

  /** In an interleaved trace every decision is the one a private counter would make. */
  lemma {:induction false} KeysAreIndependent(store: Store, hits: seq<Hit>, key: string)
    ensures ForKey(hits, Decisions(store, hits), key) == DecisionsAlone(Get(store, key), OnKey(hits, key))
    decreases |hits|
  {
    if hits == [] {
    } else {
      var store' := StoreAfter(store, hits[0]);
      KeysAreIndependent(store', hits[1..], key);
      assert Decisions(store, hits)[1..] == Decisions(store', hits[1..]);
      if hits[0].key == key {
        assert OnKey(hits, key)[1..] == OnKey(hits[1..], key);
        assert Get(store', key) == CounterAfter(Get(store, key), hits[0]);
      } else {
        assert OnKey(hits, key) == OnKey(hits[1..], key);
        assert Get(store', key) == Get(store, key);
      }
    }
  }

  // ---- Traces of one bucket ----------------------------------------------------------

  /** Arrivals in order of time, all under one limit and window. */
  ghost predicate Bucketed(hits: seq<Hit>, limit: nat, window: nat, from: nat) {
    && (forall k | 0 <= k < |hits| :: hits[k].limit == limit && hits[k].window == window && from <= hits[k].at)
    && (forall j, k | 0 <= j < k < |hits| :: hits[j].at <= hits[k].at)
  }

  function Admissions(hits: seq<Hit>, ds: seq<Decision>, a: int, b: int): nat
    requires |ds| == |hits|
  {
    if hits == [] then 0
    else (if a <= hits[0].at < b && ds[0].Admitted? then 1 else 0) + Admissions(hits[1..], ds[1..], a, b)
  }

  /** How many windows of `w` milliseconds can start at or after `x` and before `b`. */
  function Starts(x: int, b: int, w: nat): nat
    requires w > 0
    decreases b - x
  {
    if x >= b then 0 else 1 + Starts(x + w, b, w)
  }

  lemma {:induction false} StartsOfLater(x: int, y: int, b: int, w: nat)
    requires w > 0 && x <= y
    ensures Starts(y, b, w) <= Starts(x, b, w)
    decreases b - x
  {
    if y < b { StartsOfLater(x + w, y + w, b, w); }
  }

  /** How many starts fit, by when the last of them has to be. */
  lemma {:induction false} StartsAtLeast(x: int, b: int, w: nat, m: nat)
    requires w > 0 && m > 0
    ensures Starts(x, b, w) >= m <==> x + (m - 1) * w < b
    decreases m
  {
    if m == 1 {
    } else {
      OneMore(m - 1, w);
      WholeNotNegative(m - 2, w);
      StartsAtLeast(x + w, b, w, m - 1);
    }
  }

  lemma WholeNotNegative(k: nat, w: nat)
    ensures k * w >= 0
  {
  }

  lemma OneMore(k: nat, n: nat)
    requires k > 0
    ensures k * n == (k - 1) * n + n
  {
  }

  /** Windows open at least this many milliseconds apart: both ends of a window belong to it. */
  function Spacing(window: nat): nat {
    1000 * window + 1
  }

  /** Admissions the window running at time `t` still allows. */
  function Credit(c: Option<Counter>, limit: nat, t: int): nat {
    if Live(c, t) && c.value.count < limit then limit - c.value.count else 0
  }

  /** Earliest start of a next window, seen from time `t`. */
  function NextStart(c: Option<Counter>, t: int): int {
    if Live(c, t) then c.value.deadline + 1 else t
  }

  /** Admissions still possible, seen from time `t`. */
  function Allowance(c: Option<Counter>, limit: nat, window: nat, t: int, b: int): nat {
    Credit(c, limit, t) + limit * Starts(NextStart(c, t), b, Spacing(window))
  }

  /** Waiting never adds to the allowance. */
  lemma AllowanceWaits(c: Option<Counter>, limit: nat, window: nat, s: int, t: int, b: int)
    requires s <= t
    ensures Allowance(c, limit, window, t, b) <= Allowance(c, limit, window, s, b)
  {
    var w := Spacing(window);
    StartsOfLater(NextStart(c, s), NextStart(c, t), b, w);
    MulMonotone(limit, Starts(NextStart(c, t), b, w), Starts(NextStart(c, s), b, w));
  }

  /** A new window costs a start, and brings its limit as credit. */
  lemma NewWindowPaysForItself(limit: nat, w: nat, t: int, b: int)
    requires w > 0 && t < b
    ensures limit + limit * Starts(t + w, b, w) == limit * Starts(t, b, w)
  {
    assert Starts(t, b, w) == 1 + Starts(t + w, b, w);
  }

  /** One arrival pays for its admission out of the allowance. */
  lemma AllowanceStep(c: Option<Counter>, hit: Hit, b: int)
    requires hit.at < b
    ensures (if DecideAlone(c, hit).Admitted? then 1 else 0)
              + Allowance(CounterAfter(c, hit), hit.limit, hit.window, hit.at, b)
            <= Allowance(c, hit.limit, hit.window, hit.at, b)
  {
    if !Live(c, hit.at) && hit.lost != Some(false) {
      NewWindowPaysForItself(hit.limit, Spacing(hit.window), hit.at, b);
      assert NextStart(CounterAfter(c, hit), hit.at) == hit.at + Spacing(hit.window);
    }
  }

  lemma MulMonotone(l: nat, x: nat, y: nat)
    requires x <= y
    ensures l * x <= l * y
  {
  }

  lemma {:induction false} NoneAfter(hits: seq<Hit>, ds: seq<Decision>, a: int, b: int)
    requires |ds| == |hits| && forall k | 0 <= k < |hits| :: b <= hits[k].at
    ensures Admissions(hits, ds, a, b) == 0
  {
    if hits == [] {
    } else {
      NoneAfter(hits[1..], ds[1..], a, b);
    }
  }

  /** From a time inside the interval, admissions stay within the allowance. */
  lemma {:induction false} WithinAllowance(c: Option<Counter>, hits: seq<Hit>, limit: nat, window: nat, t: nat,
      a: int, b: int)
    requires a <= t && Bucketed(hits, limit, window, t)
    ensures Admissions(hits, DecisionsAlone(c, hits), a, b) <= Allowance(c, limit, window, t, b)
    decreases |hits|
  {
    if hits == [] {
    } else {
      var hit, c' := hits[0], CounterAfter(c, hits[0]);
      assert DecisionsAlone(c, hits)[1..] == DecisionsAlone(c', hits[1..]);
      if hit.at < b {
        WithinAllowance(c', hits[1..], limit, window, hit.at, a, b);
        AllowanceStep(c, hit, b);
        AllowanceWaits(c, limit, window, t, hit.at, b);
      } else {
        NoneAfter(hits, DecisionsAlone(c, hits), a, b);
      }
    }
  }

  /**
   The most one bucket can admit in the half-open interval from `a` to `b`: full windows
   from its start on, or the rest of a window that closes just there and full windows
   from then on.
   */
  function Peak(limit: nat, window: nat, a: int, b: int): nat {
    var w := Spacing(window);
    if limit == 0 || b <= a then 0
    else Max(limit * Starts(a, b, w), limit - 1 + limit * Starts(a + 1, b, w))
  }

  function Max(x: nat, y: nat): nat { if x < y then y else x }

  lemma AllowanceAtStart(c: Option<Counter>, limit: nat, window: nat, a: int, b: int)
    requires a < b
    ensures Allowance(c, limit, window, a, b) <= Peak(limit, window, a, b)
  {
    if Live(c, a) {
      var w := Spacing(window);
      StartsOfLater(a + 1, NextStart(c, a), b, w);
      MulMonotone(limit, Starts(NextStart(c, a), b, w), Starts(a + 1, b, w));
    }
  }

  /** Whatever arrives and whatever was counted before, no interval sees more admissions than its peak. */
  lemma {:induction false} IntervalBound(c: Option<Counter>, hits: seq<Hit>, limit: nat, window: nat, from: nat,
      a: nat, b: int)
    requires Bucketed(hits, limit, window, from)
    ensures Admissions(hits, DecisionsAlone(c, hits), a, b) <= Peak(limit, window, a, b)
    decreases |hits|
  {
    if hits == [] {
    } else if hits[0].at < a {
      var c' := CounterAfter(c, hits[0]);
      assert DecisionsAlone(c, hits)[1..] == DecisionsAlone(c', hits[1..]);
      IntervalBound(c', hits[1..], limit, window, from, a, b);
    } else if b <= a {
      NoneAfter(hits, DecisionsAlone(c, hits), a, b);
    } else {
      WithinAllowance(c, hits, limit, window, a, a, b);
      AllowanceAtStart(c, limit, window, a, b);
    }
  }

  function OneFewerThan(n: nat): nat {
    if n == 0 then 0 else n - 1
  }

  lemma ManyWindows(k: nat, w: nat)
    requires k > 0
    ensures (k - 1) * (w + 1) == k * w - w + k - 1
    ensures k * (w + 1) == k * w + k
  {
  }

  /**
   In k windows the peak is at most one fewer than (k + 1) limits, and is that exactly
   while k is below the window's milliseconds (for a limit of one, also at that k).
   */
  lemma PeakOfWindows(limit: nat, window: nat, a: int, k: nat)
    requires window > 0
    ensures var w := 1000 * window;
      && Peak(limit, window, a, a + k * w) <= OneFewerThan((k + 1) * limit)
      && (Peak(limit, window, a, a + k * w) == OneFewerThan((k + 1) * limit)
          <==> limit == 0 || 0 < k < w || (limit == 1 && k <= w))
  {
    var w := 1000 * window;
    var b := a + k * w;
    if limit == 0 || k == 0 {
      assert (k + 1) * 0 == 0;
    } else {
      var m, n := Starts(a, b, w + 1), Starts(a + 1, b, w + 1);
      assert k * w > 0 by { OneMore(k, w); WholeNotNegative(k - 1, w); }
      ManyWindows(k, w);
      StartsAtLeast(a, b, w + 1, k);
      StartsAtLeast(a, b, w + 1, k + 1);
      StartsAtLeast(a + 1, b, w + 1, k);
      StartsAtLeast(a + 1, b, w + 1, k + 1);
      assert m <= k && n <= k && (m == k <==> k <= w) && (n == k <==> k < w);
      PeakFrom(limit, m, n, k);
    }
  }

  /** The peak's two sums for `m` and `n` starts of at most `k`. */
  lemma PeakFrom(limit: nat, m: nat, n: nat, k: nat)
    requires limit > 0 && k > 0 && m <= k && n <= k
    ensures (k + 1) * limit > 0 && Max(limit * m, limit - 1 + limit * n) <= (k + 1) * limit - 1
    ensures Max(limit * m, limit - 1 + limit * n) == (k + 1) * limit - 1 <==> n == k || (limit == 1 && m == k)
  {
    assert (k + 1) * limit == limit * k + limit;
    MulMonotone(limit, m, k);
    MulMonotone(limit, n, k);
    if n < k {
      MulMonotone(limit, n, k - 1);
      assert limit * (k - 1) == limit * k - limit;
    }
    if m < k {
      MulMonotone(limit, m, k - 1);
      assert limit * (k - 1) == limit * k - limit;
    }
  }

  /** Admissions for one key in an interleaved trace. */
  function AdmissionsFor(hits: seq<Hit>, ds: seq<Decision>, key: string, a: int, b: int): nat
    requires |ds| == |hits|
  {
    if hits == [] then 0
    else (if hits[0].key == key && a <= hits[0].at < b && ds[0].Admitted? then 1 else 0)
         + AdmissionsFor(hits[1..], ds[1..], key, a, b)
  }

  lemma {:induction false} AdmissionsOfKey(hits: seq<Hit>, ds: seq<Decision>, key: string, a: int, b: int)
    requires |ds| == |hits|
    ensures |ForKey(hits, ds, key)| == |OnKey(hits, key)|
    ensures AdmissionsFor(hits, ds, key, a, b) == Admissions(OnKey(hits, key), ForKey(hits, ds, key), a, b)
  {
    if hits == [] {
    } else {
      AdmissionsOfKey(hits[1..], ds[1..], key, a, b);
      if hits[0].key == key {
        assert OnKey(hits, key)[1..] == OnKey(hits[1..], key);
        assert ForKey(hits, ds, key)[1..] == ForKey(hits[1..], ds[1..], key);
      } else {
        assert OnKey(hits, key) == OnKey(hits[1..], key);
        assert ForKey(hits, ds, key) == ForKey(hits[1..], ds[1..], key);
      }
    }
  }

  /** The bound for one key while any other keys' requests interleave, from an empty store. */
  lemma RateBound(hits: seq<Hit>, key: string, limit: nat, window: nat, a: nat, b: int)
    requires Bucketed(OnKey(hits, key), limit, window, 0)
    ensures AdmissionsFor(hits, Decisions(map[], hits), key, a, b) <= Peak(limit, window, a, b)
  {
    AdmissionsOfKey(hits, Decisions(map[], hits), key, a, b);
    KeysAreIndependent(map[], hits, key);
    IntervalBound(None, OnKey(hits, key), limit, window, 0, a, b);
  }

  // ---- The bound is attained --------------------------------------------------------

  function CountersAfter(c: Option<Counter>, hits: seq<Hit>): Option<Counter>
    decreases |hits|
  {
    if hits == [] then c else CountersAfter(CounterAfter(c, hits[0]), hits[1..])
  }

  lemma {:induction false} AdmissionsAppend(c: Option<Counter>, h1: seq<Hit>, h2: seq<Hit>, a: int, b: int)
    ensures Admissions(h1 + h2, DecisionsAlone(c, h1 + h2), a, b)
         == Admissions(h1, DecisionsAlone(c, h1), a, b)
            + Admissions(h2, DecisionsAlone(CountersAfter(c, h1), h2), a, b)
    decreases |h1|
  {
    if h1 == [] {
      assert h1 + h2 == h2;
    } else {
      var c', h := CounterAfter(c, h1[0]), h1 + h2;
      assert h[1..] == h1[1..] + h2;
      assert DecisionsAlone(c, h)[1..] == DecisionsAlone(c', h[1..]);
      assert DecisionsAlone(c, h1)[1..] == DecisionsAlone(c', h1[1..]);
      AdmissionsAppend(c', h1[1..], h2, a, b);
    }
  }

  /** `n` simultaneous requests. */
  function Burst(n: nat, hit: Hit): seq<Hit> {
    if n == 0 then [] else [hit] + Burst(n - 1, hit)
  }

  /** A burst that fits into the live window is admitted whole. */
  lemma {:induction false} BurstAdmitted(c: Counter, n: nat, hit: Hit, a: int, b: int)
    requires hit.lost.None? && hit.at <= c.deadline && c.count + n <= hit.limit && a <= hit.at < b
    ensures Admissions(Burst(n, hit), DecisionsAlone(Some(c), Burst(n, hit)), a, b) == n
    ensures CountersAfter(Some(c), Burst(n, hit)) == Some(Counter(c.count + n, c.deadline))
    decreases n
  {
    if n == 0 {
    } else {
      var hits, c' := Burst(n, hit), Counter(c.count + 1, c.deadline);
      assert hits[1..] == Burst(n - 1, hit);
      assert DecisionsAlone(Some(c), hits)[1..] == DecisionsAlone(Some(c'), hits[1..]);
      BurstAdmitted(c', n - 1, hit, a, b);
    }
  }

  /** A full burst at the start of a fresh window. */
  lemma FreshBurstAdmitted(c: Option<Counter>, hit: Hit, a: int, b: int)
    requires hit.lost.None? && hit.limit > 0 && !Live(c, hit.at) && a <= hit.at < b
    ensures Admissions(Burst(hit.limit, hit), DecisionsAlone(c, Burst(hit.limit, hit)), a, b) == hit.limit
    ensures CountersAfter(c, Burst(hit.limit, hit)) == Some(Counter(hit.limit, hit.at + 1000 * hit.window))
  {
    var hits, c' := Burst(hit.limit, hit), Counter(1, hit.at + 1000 * hit.window);
    assert hits[1..] == Burst(hit.limit - 1, hit);
    assert DecisionsAlone(c, hits)[1..] == DecisionsAlone(Some(c'), hits[1..]);
    BurstAdmitted(c', hit.limit - 1, hit, a, b);
  }

  /** `k` full bursts, each one millisecond after the window before it closed. */
  function Bursts(k: nat, hit: Hit): seq<Hit> {
    if k == 0 then [] else Burst(hit.limit, hit) + Bursts(k - 1, hit.(at := hit.at + 1000 * hit.window + 1))
  }

  /** When the last of `k` bursts starts, if the first starts at `at`. */
  function LastStart(at: nat, k: nat, w: nat): nat
    decreases k
  {
    if k <= 1 then at else LastStart(at + w + 1, k - 1, w)
  }

  lemma {:induction false} LastStartNotBefore(at: nat, k: nat, w: nat)
    ensures at <= LastStart(at, k, w)
    decreases k
  {
    if k > 1 { LastStartNotBefore(at + w + 1, k - 1, w); }
  }

  lemma {:induction false} LastStartIs(at: nat, k: nat, w: nat)
    requires k > 0
    ensures LastStart(at, k, w) == at + (k - 1) * w + (k - 1)
    decreases k
  {
    if k > 1 {
      LastStartIs(at + w + 1, k - 1, w);
      OneMore(k - 1, w);
    }
  }

  lemma {:induction false} BurstsAdmitted(c: Option<Counter>, k: nat, hit: Hit, a: int, b: int)
    requires hit.lost.None? && hit.limit > 0 && !Live(c, hit.at) && a <= hit.at
    requires LastStart(hit.at, k, 1000 * hit.window) < b
    ensures Admissions(Bursts(k, hit), DecisionsAlone(c, Bursts(k, hit)), a, b) == k * hit.limit
    decreases k
  {
    if k == 0 {
    } else {
      var w := 1000 * hit.window;
      LastStartNotBefore(hit.at, k, w);
      FreshBurstAdmitted(c, hit, a, b);
      var next := hit.(at := hit.at + w + 1);
      AdmissionsAppend(c, Burst(hit.limit, hit), Bursts(k - 1, next), a, b);
      if k > 1 { BurstsAdmitted(Some(Counter(hit.limit, hit.at + w)), k - 1, next, a, b); }
      OneMore(k, hit.limit);
    }
  }

  lemma BucketedAppend(h1: seq<Hit>, h2: seq<Hit>, limit: nat, window: nat, from: nat, mid: nat)
    requires Bucketed(h1, limit, window, from) && Bucketed(h2, limit, window, mid) && from <= mid
    requires forall k | 0 <= k < |h1| :: h1[k].at <= mid
    ensures Bucketed(h1 + h2, limit, window, from)
  {
  }

  lemma {:induction false} BurstBucketed(n: nat, hit: Hit)
    ensures Bucketed(Burst(n, hit), hit.limit, hit.window, hit.at)
    ensures forall k | 0 <= k < |Burst(n, hit)| :: Burst(n, hit)[k] == hit
  {
    if n == 0 {
    } else {
      BurstBucketed(n - 1, hit);
    }
  }

  lemma {:induction false} BurstsBucketed(k: nat, hit: Hit)
    ensures Bucketed(Bursts(k, hit), hit.limit, hit.window, hit.at)
    ensures forall j | 0 <= j < |Bursts(k, hit)| :: Bursts(k, hit)[j].key == hit.key
  {
    if k == 0 {
    } else {
      var next := hit.(at := hit.at + 1000 * hit.window + 1);
      BurstBucketed(hit.limit, hit);
      BurstsBucketed(k - 1, next);
      BucketedAppend(Burst(hit.limit, hit), Bursts(k - 1, next), hit.limit, hit.window, hit.at, next.at);
    }
  }

  ghost predicate OnlyKey(hits: seq<Hit>, key: string) {
    forall k | 0 <= k < |hits| :: hits[k].key == key
  }

  /** As many bursts as windows can start in the interval. */
  function FullWindows(key: string, limit: nat, window: nat, a: nat, b: int): seq<Hit> {
    Bursts(Starts(a, b, Spacing(window)), Hit(a, key, limit, window, None))
  }

  lemma FullWindowsAdmitted(c: Option<Counter>, key: string, limit: nat, window: nat, start: nat, a: int, b: int)
    requires limit > 0 && !Live(c, start) && a <= start
    ensures var hits := FullWindows(key, limit, window, start, b);
      && Admissions(hits, DecisionsAlone(c, hits), a, b) == limit * Starts(start, b, Spacing(window))
      && Bucketed(hits, limit, window, start) && OnlyKey(hits, key)
  {
    var hit, n := Hit(start, key, limit, window, None), Starts(start, b, Spacing(window));
    BurstsBucketed(n, hit);
    if n == 0 {
    } else {
      StartsAtLeast(start, b, Spacing(window), n);
      LastStartIs(start, n, 1000 * window);
      ManyWindows(n, 1000 * window);
      BurstsAdmitted(c, n, hit, a, b);
    }
  }

  /** One request opens a window; the rest of its limit comes as it closes, and full windows follow. */
  function ClosingWindow(key: string, limit: nat, window: nat, a: nat, b: int): seq<Hit>
    requires limit > 0 && 1000 * window <= a
  {
    [Hit(a - 1000 * window, key, limit, window, None)]
    + (Burst(limit - 1, Hit(a, key, limit, window, None)) + FullWindows(key, limit, window, a + 1, b))
  }

  lemma ClosingWindowBucketed(key: string, limit: nat, window: nat, a: nat, b: int)
    requires limit > 0 && 1000 * window <= a
    ensures var hits := ClosingWindow(key, limit, window, a, b);
      Bucketed(hits, limit, window, 0) && OnlyKey(hits, key)
  {
    var first := Hit(a - 1000 * window, key, limit, window, None);
    var rest, full := Burst(limit - 1, first.(at := a)), FullWindows(key, limit, window, a + 1, b);
    BurstBucketed(limit - 1, first.(at := a));
    BurstsBucketed(Starts(a + 1, b, Spacing(window)), first.(at := a + 1));
    BucketedAppend(rest, full, limit, window, a, a + 1);
    BucketedAppend([first], rest + full, limit, window, 0, a);
  }

  /** What remains once the window is open. */
  lemma RestOfClosingWindow(key: string, limit: nat, window: nat, a: nat, b: int)
    requires limit > 0 && a < b
    ensures var hits := Burst(limit - 1, Hit(a, key, limit, window, None)) + FullWindows(key, limit, window, a + 1, b);
      Admissions(hits, DecisionsAlone(Some(Counter(1, a)), hits), a, b)
      == limit - 1 + limit * Starts(a + 1, b, Spacing(window))
  {
    var hit, c := Hit(a, key, limit, window, None), Counter(1, a);
    var full := FullWindows(key, limit, window, a + 1, b);
    BurstAdmitted(c, limit - 1, hit, a, b);
    AdmissionsAppend(Some(c), Burst(limit - 1, hit), full, a, b);
    FullWindowsAdmitted(Some(Counter(limit, a)), key, limit, window, a + 1, a, b);
  }

  lemma ClosingWindowAdmitted(key: string, limit: nat, window: nat, a: nat, b: int)
    requires limit > 0 && window > 0 && 1000 * window <= a < b
    ensures var hits := ClosingWindow(key, limit, window, a, b);
      Admissions(hits, DecisionsAlone(None, hits), a, b) == limit - 1 + limit * Starts(a + 1, b, Spacing(window))
  {
    var hits := ClosingWindow(key, limit, window, a, b);
    var rest := Burst(limit - 1, Hit(a, key, limit, window, None)) + FullWindows(key, limit, window, a + 1, b);
    assert hits[1..] == rest;
    assert DecisionsAlone(None, hits)[1..] == DecisionsAlone(Some(Counter(1, a)), rest);
    RestOfClosingWindow(key, limit, window, a, b);
  }

  /** The bound is exact for every interval: some counter and trace of one key attain it. */
  lemma BoundTight(key: string, limit: nat, window: nat, a: nat, b: int) returns (c: Option<Counter>, hits: seq<Hit>)
    ensures Bucketed(hits, limit, window, a) && OnlyKey(hits, key)
    ensures c.Some? ==> c.value.count <= limit && c.value.deadline == a
    ensures Admissions(hits, DecisionsAlone(c, hits), a, b) == Peak(limit, window, a, b)
  {
    var w := Spacing(window);
    if limit == 0 || b <= a {
      c, hits := None, [];
    } else if limit * Starts(a, b, w) < limit - 1 + limit * Starts(a + 1, b, w) {
      var hit := Hit(a, key, limit, window, None);
      c, hits := Some(Counter(1, a)), Burst(limit - 1, hit) + FullWindows(key, limit, window, a + 1, b);
      RestOfClosingWindow(key, limit, window, a, b);
      BurstBucketed(limit - 1, hit);
      BurstsBucketed(Starts(a + 1, b, w), hit.(at := a + 1));
      BucketedAppend(Burst(limit - 1, hit), FullWindows(key, limit, window, a + 1, b), limit, window, a, a + 1);
    } else {
      c, hits := None, FullWindows(key, limit, window, a, b);
      FullWindowsAdmitted(None, key, limit, window, a, a, b);
    }
  }

  /** Once a window's time has passed on the clock, a trace of one key attains it from an empty store too. */
  lemma BoundAttained(key: string, limit: nat, window: nat, a: nat, b: int) returns (hits: seq<Hit>)
    requires window > 0 && 1000 * window <= a
    ensures Bucketed(hits, limit, window, 0) && OnlyKey(hits, key)
    ensures Admissions(hits, DecisionsAlone(None, hits), a, b) == Peak(limit, window, a, b)
  {
    var w := Spacing(window);
    if limit == 0 || b <= a {
      hits := [];
    } else if limit * Starts(a, b, w) < limit - 1 + limit * Starts(a + 1, b, w) {
      hits := ClosingWindow(key, limit, window, a, b);
      ClosingWindowBucketed(key, limit, window, a, b);
      ClosingWindowAdmitted(key, limit, window, a, b);
    } else {
      hits := FullWindows(key, limit, window, a, b);
      FullWindowsAdmitted(None, key, limit, window, a, a, b);
    }
  }

  // ---- One window ------------------------------------------------------------------

  /** How many of the hits the store has run. */
  function Counted(hits: seq<Hit>): nat {
    if hits == [] then 0 else (if hits[0].lost == Some(false) then 0 else 1) + Counted(hits[1..])
  }

  /** Under a live counter, a hit is judged by the counter and the hits run before it. */
  lemma {:induction false} LiveDecisions(c: Counter, hits: seq<Hit>, k: nat)
    requires k < |hits| && forall j | 0 <= j < |hits| :: hits[j].at <= c.deadline
    ensures DecisionsAlone(Some(c), hits)[k] == Verdict(hits[k], c.count + Counted(hits[..k]) + 1)
    decreases k
  {
    if k == 0 {
    } else {
      var c' := CounterAfter(Some(c), hits[0]).value;
      assert c'.count + Counted(hits[..k][1..]) == c.count + Counted(hits[..k]);
      assert hits[..k][1..] == hits[1..][..k - 1];
      LiveDecisions(c', hits[1..], k - 1);
    }
  }

  /** `hits` fall into one window, opened by the first of them. */
  ghost predicate OneWindow(c: Option<Counter>, hits: seq<Hit>, limit: nat, window: nat) {
    && hits != [] && hits[0].lost != Some(false) && !Live(c, hits[0].at)
    && forall j | 0 <= j < |hits| ::
         hits[j].limit == limit && hits[j].window == window && hits[j].at <= hits[0].at + 1000 * window
  }

  /** In a window every hit is judged by how many the store ran before it, lost replies included. */
  lemma WindowDecisions(c: Option<Counter>, hits: seq<Hit>, limit: nat, window: nat, k: nat)
    requires OneWindow(c, hits, limit, window) && k < |hits|
    ensures DecisionsAlone(c, hits)[k] == Verdict(hits[k], Counted(hits[..k]) + 1)
  {
    if k > 0 {
      LiveDecisions(Counter(1, hits[0].at + 1000 * window), hits[1..], k - 1);
      assert hits[..k][1..] == hits[1..][..k - 1];
    }
  }

  lemma {:induction false} AllCounted(hits: seq<Hit>)
    requires forall j | 0 <= j < |hits| :: hits[j].lost.None?
    ensures Counted(hits) == |hits|
  {
    if hits == [] {
    } else {
      AllCounted(hits[1..]);
    }
  }

  function Min(x: nat, y: nat): nat { if x < y then x else y }

  lemma {:induction false} FirstAdmitted(hits: seq<Hit>, ds: seq<Decision>, n: nat, a: int, b: int)
    requires |ds| == |hits| && forall k | 0 <= k < |hits| :: a <= hits[k].at < b && (ds[k].Admitted? <==> k < n)
    ensures Admissions(hits, ds, a, b) == Min(|hits|, n)
    decreases |hits|
  {
    if hits != [] { FirstAdmitted(hits[1..], ds[1..], if n == 0 then 0 else n - 1, a, b); }
  }

  /**
   Within one window with every reply received, the first `limit` hits are admitted
   and no others, and what an admitted response reports as remaining, plus the
   admissions so far, is the limit.
   */
  lemma WindowAccounting(c: Option<Counter>, hits: seq<Hit>, limit: nat, window: nat, a: int, b: int)
    requires OneWindow(c, hits, limit, window)
    requires forall j | 0 <= j < |hits| :: hits[j].lost.None? && a <= hits[j].at < b
    ensures var ds := DecisionsAlone(c, hits);
      && Admissions(hits, ds, a, b) == Min(|hits|, limit)
      && forall k | 0 <= k < |hits| ::
           if k < limit
           then ds[k].Admitted? && ds[k].remaining + Admissions(hits[..k + 1], ds[..k + 1], a, b) == limit
           else ds[k].Rejected?
  {
    var ds := DecisionsAlone(c, hits);
    forall k | 0 <= k < |hits|
      ensures ds[k] == if k < limit then Admitted(limit - (k + 1)) else Rejected
    {
      WindowDecisions(c, hits, limit, window, k);
      AllCounted(hits[..k]);
    }
    FirstAdmitted(hits, ds, limit, a, b);
    forall k | 0 <= k < |hits| && k < limit
      ensures ds[k].Admitted? && ds[k].remaining + Admissions(hits[..k + 1], ds[..k + 1], a, b) == limit
    {
      FirstAdmitted(hits[..k + 1], ds[..k + 1], limit, a, b);
    }
  }

  // ---- Retry-After ----------------------------------------------------------------------

  /** The store's TTL in whole seconds, rounded; -2 for a key that is gone. */
  function Ttl(store: Store, key: string, now: nat): int {
    if Live(Get(store, key), now) then (store[key].deadline - now + 500) / 1000 else -2
  }

  function RetryAfter(ttl: int): int {
    if ttl > 1 then ttl else 1
  }

  /**
   What a Retry-After sent at instant `t` means for the key's counter: while it is live,
   the seconds left to its deadline, to the nearest second but never below one; one if
   it is gone.
   */
  ghost predicate TellsWhen(c: Option<Counter>, t: nat, header: int) {
    if Live(c, t) then
      var left := c.value.deadline - t;
      header >= 1 && (header == 1 || -500 <= 1000 * header - left <= 500) && left < 1000 * header + 500
    else header == 1
  }

  lemma RetryAfterTellsWhen(store: Store, key: string, t: nat)
    ensures TellsWhen(Get(store, key), t, RetryAfter(Ttl(store, key, t)))
  {
  }

  /** Who waits that long, and half a second more, meets a new window, nothing else arriving for the key. */
  lemma RetryAfterSuffices(store: Store, t: nat, header: int, next: Hit)
    requires TellsWhen(Get(store, next.key), t, header)
    requires next.lost == None && next.limit > 0 && t + 1000 * header + 500 <= next.at
    ensures Decide(store, next) == Admitted(next.limit - 1)
  {
  }

  function StoresAfter(store: Store, hits: seq<Hit>): Store
    decreases |hits|
  {
    if hits == [] then store else StoresAfter(StoreAfter(store, hits[0]), hits[1..])
  }

  /** The store keeps, for each key, what that key's private counter would be. */
  lemma {:induction false} StoredCounter(store: Store, hits: seq<Hit>, key: string)
    ensures Get(StoresAfter(store, hits), key) == CountersAfter(Get(store, key), OnKey(hits, key))
    decreases |hits|
  {
    if hits == [] {
    } else {
      var store' := StoreAfter(store, hits[0]);
      StoredCounter(store', hits[1..], key);
      if hits[0].key == key {
        assert OnKey(hits, key)[1..] == OnKey(hits[1..], key);
        assert Get(store', key) == CounterAfter(Get(store, key), hits[0]);
      } else {
        assert OnKey(hits, key) == OnKey(hits[1..], key);
        assert Get(store', key) == Get(store, key);
      }
    }
  }

  /** A counter never expires further ahead than its window. */
  lemma {:induction false} CountersExpire(c: Option<Counter>, hits: seq<Hit>, limit: nat, window: nat, from: nat,
      now: nat)
    requires Bucketed(hits, limit, window, from) && forall k | 0 <= k < |hits| :: hits[k].at <= now
    requires c.Some? ==> c.value.deadline <= now + 1000 * window
    ensures var end := CountersAfter(c, hits); end.Some? ==> end.value.deadline <= now + 1000 * window
    decreases |hits|
  {
    if hits == [] {
    } else {
      CountersExpire(CounterAfter(c, hits[0]), hits[1..], limit, window, from, now);
    }
  }

  /**
   Retry-After lies between one second and the window, whatever was served between
   the rejection and the TTL read, even if the key expired or its window restarted.
   */
  lemma RetryAfterWithinWindow(hits: seq<Hit>, key: string, limit: nat, window: nat, now: nat)
    requires window > 0 && Bucketed(OnKey(hits, key), limit, window, 0)
    requires forall k | 0 <= k < |OnKey(hits, key)| :: OnKey(hits, key)[k].at <= now
    ensures 1 <= RetryAfter(Ttl(StoresAfter(map[], hits), key, now)) <= window
    ensures key in StoresAfter(map[], hits) ==> StoresAfter(map[], hits)[key].deadline <= now + 1000 * window
  {
    StoredCounter(map[], hits, key);
    CountersExpire(None, OnKey(hits, key), limit, window, 0, now);
  }

  // ---- The guard -------------------------------------------------------------------------

  datatype Headers = Headers(limit: Option<nat>, remaining: Option<nat>, retryAfter: Option<int>)

  /** What the guard throws: the rejection, or the failure of the TTL read before it. */
  datatype Thrown = TooManyRequests | StoreFailure

  class RateLimitGuard {
    var store: Store

    constructor ()
      ensures store == map[]
    {
      store := map[];
    }

    /** The increment script, run atomically by the store. */
    method Eval(key: string, window: nat, now: nat) returns (current: nat)
      modifies this
      ensures store == old(store)[key := Bump(Get(old(store), key), window, now)]
      ensures current == store[key].count
    {
      var previous := if key in store && now <= store[key].deadline then store[key].count else 0;
      current := previous + 1;
      if current == 1 {
        store := store[key := Counter(current, now + 1000 * window)];
      } else {
        store := store[key := Counter(current, store[key].deadline)];
      }
    }

    /** Other requests the store serves while this one waits. */
    method Meanwhile(hits: seq<Hit>)
      modifies this
      ensures store == StoresAfter(old(store), hits)
    {
      var i := 0;
      while i < |hits|
        invariant 0 <= i <= |hits|
        invariant StoresAfter(store, hits[i..]) == StoresAfter(old(store), hits)
      {
        var hit := hits[i];
        if hit.lost != Some(false) {
          var _ := Eval(hit.key, hit.window, hit.at);
        }
        assert hits[i..][1..] == hits[i + 1..];
        i := i + 1;
      }
      assert hits[i..] == [];
    }

    /**
     `canActivate` with the options resolved. `others` are served before the TTL
     read at `later`, which happens only on rejection and may fail; the request is
     then not let through either.
     */
    method CanActivate(hit: Hit, others: seq<Hit>, later: nat, ttlFails: bool)
      returns (decision: Decision, headers: Headers, thrown: Option<Thrown>)
      modifies this
      ensures decision == Decide(old(store), hit)
      ensures decision.Rejected? ==> store == StoresAfter(StoreAfter(old(store), hit), others)
      ensures !decision.Rejected? ==> store == StoreAfter(old(store), hit)
      ensures decision.FailedOpen? ==> headers == Headers(None, None, None)
      ensures decision.Admitted? ==> headers == Headers(Some(hit.limit), Some(decision.remaining), None)
      ensures decision.Rejected? ==>
        && headers.limit == Some(hit.limit) && headers.remaining == Some(0)
        && (headers.retryAfter.None? <==> ttlFails)
        && (headers.retryAfter.Some? ==> headers.retryAfter == Some(RetryAfter(Ttl(store, hit.key, later)))
                                         && TellsWhen(Get(store, hit.key), later, headers.retryAfter.value))
      ensures thrown.Some? <==> decision.Rejected?
      ensures thrown.Some? ==> thrown.value == if ttlFails then StoreFailure else TooManyRequests
    {
      headers, thrown := Headers(None, None, None), None;
      if hit.lost == Some(false) {
        return FailedOpen, headers, None;
      }
      var current := Eval(hit.key, hit.window, hit.at);
      if hit.lost.Some? {
        return FailedOpen, headers, None;
      }
      var remaining := if hit.limit > current then hit.limit - current else 0;
      headers := headers.(limit := Some(hit.limit), remaining := Some(remaining));
      if current > hit.limit {
        Meanwhile(others);
        if ttlFails {
          return Rejected, headers, Some(StoreFailure);
        }
        var ttl := if hit.key in store && later <= store[hit.key].deadline
                   then (store[hit.key].deadline - later + 500) / 1000 else -2;
        headers := headers.(retryAfter := Some(if ttl > 1 then ttl else 1));
        return Rejected, headers, Some(TooManyRequests);
      }
      decision := Admitted(hit.limit - current);
    }
  }
}
