/**
 * The in-memory path of the rate limiter (middleware/rateLimiter.js): one store shared by
 * every limiter, swept on each request, with an entry per (namespace, client, bucket). The
 * SHA-1 in the store key is taken to be injective, so a key is the tuple it hashes.
 */
module RateLimiter {
  import opened Wrappers

  /** A configured limiter, after the clamps of createRateLimiter. */
  datatype Limit = Limit(windowMs: nat, max: nat)

  type Limits = map<string, Limit>

  predicate Sound(limits: Limits) {
    forall ns :: ns in limits ==> limits[ns].windowMs >= 1000 && limits[ns].max >= 1
  }

  datatype Key = Key(ns: string, client: string, bucket: nat)

  datatype Entry = Entry(count: nat, expiresAt: nat)

  type Store = map<Key, Entry>

  /**
   * One request and its three clock readings: for the bucket number, for the sweep and for
   * the counter.
   */
  datatype Request = Request(ns: string, client: string, bucketAt: nat, sweptAt: nat, countedAt: nat)

  function WindowSeconds(windowMs: nat): nat {
    (windowMs + 999) / 1000
  }

  function KeyOf(limits: Limits, r: Request): Key
    requires Sound(limits) && r.ns in limits
  {
    Key(r.ns, r.client, r.bucketAt / limits[r.ns].windowMs)
  }

  // ---------------------------------------------------------------------------
  // The store
  // ---------------------------------------------------------------------------

  function Sweep(store: Store, now: nat): Store {
    map k | k in store && store[k].expiresAt > now :: store[k]
  }

  function Count(store: Store, key: Key, windowMs: nat, now: nat): Store {
    if key !in store || store[key].expiresAt <= now
    then store[key := Entry(1, now + WindowSeconds(windowMs) * 1000)]
    else store[key := Entry(store[key].count + 1, store[key].expiresAt)]
  }

  function Serve(limits: Limits, store: Store, r: Request): Store
    requires Sound(limits) && r.ns in limits
  {
    Count(Sweep(store, r.sweptAt), KeyOf(limits, r), limits[r.ns].windowMs, r.countedAt)
  }

  function Admitted(limits: Limits, store: Store, r: Request): bool
    requires Sound(limits) && r.ns in limits
  {
    Serve(limits, store, r)[KeyOf(limits, r)].count <= limits[r.ns].max
  }

  class LocalStore {
    var entries: Store

    constructor ()
      ensures entries == map[]
    {
      entries := map[];
    }

    /** cleanupLocalStore: walk over the keys and delete what has expired. */
    method Cleanup(now: nat)
      modifies this
      ensures entries == Sweep(old(entries), now)
    {
      var keys := entries.Keys;
      while keys != {}
        invariant keys <= old(entries).Keys
        invariant entries == map k | k in old(entries) && (k in keys || old(entries)[k].expiresAt > now) :: old(entries)[k]
        decreases |keys|
      {
        var key :| key in keys;
        if entries[key].expiresAt <= now {
          entries := entries - {key};
        }
        keys := keys - {key};
      }
    }

    /** incrementCount without Redis. */
    method IncrementCount(key: Key, windowMs: nat, sweptAt: nat, countedAt: nat) returns (count: nat)
      modifies this
      ensures entries == Count(Sweep(old(entries), sweptAt), key, windowMs, countedAt)
      ensures key in entries && count == entries[key].count
    {
      Cleanup(sweptAt);
      if key !in entries || entries[key].expiresAt <= countedAt {
        entries := entries[key := Entry(1, countedAt + WindowSeconds(windowMs) * 1000)];
        return 1;
      }
      count := entries[key].count + 1;
      entries := entries[key := Entry(count, entries[key].expiresAt)];
    }

    /** The middleware: true lets the request through, false answers 429. */
    method Handle(limits: Limits, r: Request) returns (admitted: bool)
      requires Sound(limits) && r.ns in limits
      modifies this
      ensures entries == Serve(limits, old(entries), r)
      ensures admitted == Admitted(limits, old(entries), r)
    {
      var limit := limits[r.ns];
      var count := IncrementCount(Key(r.ns, r.client, r.bucketAt / limit.windowMs), limit.windowMs, r.sweptAt, r.countedAt);
      admitted := count <= limit.max;
    }
  }

  // ---------------------------------------------------------------------------
  // Runs, and the ideal counter
  // ---------------------------------------------------------------------------

  predicate Known(limits: Limits, rs: seq<Request>) {
    Sound(limits) && forall i :: 0 <= i < |rs| ==> rs[i].ns in limits
  }

  /** The clock never goes back, within a request and between requests. */
  predicate Monotone(rs: seq<Request>) {
    && (forall i :: 0 <= i < |rs| ==> rs[i].bucketAt <= rs[i].sweptAt <= rs[i].countedAt)
    && (forall i :: 0 < i < |rs| ==> rs[i - 1].countedAt <= rs[i].bucketAt)
  }

  /** The readings of one request fall into one bucket; a single reading always does. */
  predicate NoStraddle(limits: Limits, rs: seq<Request>)
    requires Known(limits, rs)
  {
    forall i :: 0 <= i < |rs| ==>
      rs[i].bucketAt / limits[rs[i].ns].windowMs == rs[i].countedAt / limits[rs[i].ns].windowMs
  }

  function Run(limits: Limits, rs: seq<Request>): Store
    requires Known(limits, rs)
  {
    if rs == [] then map[] else Serve(limits, Run(limits, rs[..|rs| - 1]), rs[|rs| - 1])
  }

  /** The ideal counter: how many requests so far carried this key. */
  function Arrivals(limits: Limits, rs: seq<Request>, key: Key): nat
    requires Known(limits, rs)
  {
    if rs == [] then 0
    else Arrivals(limits, rs[..|rs| - 1], key) + (if KeyOf(limits, rs[|rs| - 1]) == key then 1 else 0)
  }

  /** How many of them were let through. */
  function Passed(limits: Limits, rs: seq<Request>, key: Key): nat
    requires Known(limits, rs)
  {
    if rs == [] then 0
    else
      var before, r := rs[..|rs| - 1], rs[|rs| - 1];
      Passed(limits, before, key) + (if KeyOf(limits, r) == key && Admitted(limits, Run(limits, before), r) then 1 else 0)
  }

  // ---------------------------------------------------------------------------
  // Refinement
  // ---------------------------------------------------------------------------

  lemma InBucket(t: nat, w: nat)
    requires w > 0
    ensures (t / w) * w <= t < (t / w + 1) * w
  {
  }

  /** A key whose bucket is still open holds exactly its arrivals and cannot expire inside the bucket. */
  predicate Mirrors(limits: Limits, store: Store, key: Key, arrivals: nat)
    requires key.ns in limits
  {
    if arrivals == 0 then key !in store
    else key in store && store[key].count == arrivals && store[key].expiresAt >= (key.bucket + 1) * limits[key.ns].windowMs
  }

  ghost predicate Refines(limits: Limits, rs: seq<Request>, now: nat)
    requires Known(limits, rs)
  {
    forall key: Key :: key.ns in limits && now < (key.bucket + 1) * limits[key.ns].windowMs
      ==> Mirrors(limits, Run(limits, rs), key, Arrivals(limits, rs, key))
  }

  lemma ServeMirrors(limits: Limits, store: Store, r: Request, key: Key, arrivals: nat)
    requires Sound(limits) && r.ns in limits && key.ns in limits
    requires r.bucketAt <= r.sweptAt <= r.countedAt < (key.bucket + 1) * limits[key.ns].windowMs
    requires key == KeyOf(limits, r) ==> key.bucket * limits[key.ns].windowMs <= r.countedAt
    requires Mirrors(limits, store, key, arrivals)
    ensures Mirrors(limits, Serve(limits, store, r), key, if key == KeyOf(limits, r) then arrivals + 1 else arrivals)
  {
  }

  lemma ServeRefines(limits: Limits, rs: seq<Request>, last: nat)
    requires Known(limits, rs) && rs != [] && NoStraddle(limits, rs)
    requires var r := rs[|rs| - 1]; last <= r.bucketAt <= r.sweptAt <= r.countedAt
    requires Refines(limits, rs[..|rs| - 1], last)
    ensures Refines(limits, rs, rs[|rs| - 1].countedAt)
    ensures var r := rs[|rs| - 1];
            var own := KeyOf(limits, r);
            own in Run(limits, rs) && Run(limits, rs)[own].count == Arrivals(limits, rs, own)
  {
    var r := rs[|rs| - 1];
    var before := Run(limits, rs[..|rs| - 1]);
    var own, w := KeyOf(limits, r), limits[r.ns].windowMs;
    InBucket(r.countedAt, w);
    forall key: Key | key.ns in limits && r.countedAt < (key.bucket + 1) * limits[key.ns].windowMs
      ensures Mirrors(limits, Run(limits, rs), key, Arrivals(limits, rs, key))
    {
      var arrivals := Arrivals(limits, rs[..|rs| - 1], key);
      assert Mirrors(limits, before, key, arrivals);
      ServeMirrors(limits, before, r, key, arrivals);
    }
    assert Mirrors(limits, Run(limits, rs), own, Arrivals(limits, rs, own));
  }

  function End(rs: seq<Request>): nat {
    if rs == [] then 0 else rs[|rs| - 1].countedAt
  }

  lemma {:induction false} RunRefines(limits: Limits, rs: seq<Request>)
    requires Known(limits, rs) && Monotone(rs) && NoStraddle(limits, rs)
    ensures Refines(limits, rs, End(rs))
  {
    if rs != [] {
      RunRefines(limits, rs[..|rs| - 1]);
      ServeRefines(limits, rs, End(rs[..|rs| - 1]));
    }
  }

  // ---------------------------------------------------------------------------
  // Exactly when the count is ideal
  // ---------------------------------------------------------------------------

  /** After n arrivals of its key, the request finds the entry still there and not expired, or is the first. */
  predicate FindsEntry(limits: Limits, store: Store, r: Request, n: nat)
    requires Sound(limits) && r.ns in limits
  {
    var own := KeyOf(limits, r);
    n == 0 || (own in store && store[own].expiresAt > Max(r.sweptAt, r.countedAt))
  }

  /** A store that has forgotten some keys and counts the others right. */
  predicate Counts(store: Store, key: Key, arrivals: nat) {
    if key in store then arrivals > 0 && store[key].count == arrivals else true
  }

  /** A request gets the next ideal count exactly when it finds its entry alive; otherwise it starts again from one and is let through. */
  lemma NextCountIff(limits: Limits, store: Store, r: Request, n: nat)
    requires Sound(limits) && r.ns in limits && Counts(store, KeyOf(limits, r), n)
    ensures var after := Serve(limits, store, r)[KeyOf(limits, r)].count;
      && (after == n + 1 <==> FindsEntry(limits, store, r, n))
      && (!FindsEntry(limits, store, r, n) ==> after == 1 && Admitted(limits, store, r))
  {
  }

  ghost predicate AllFind(limits: Limits, rs: seq<Request>)
    requires Known(limits, rs)
  {
    rs != [] ==>
      var before, r := rs[..|rs| - 1], rs[|rs| - 1];
      AllFind(limits, before) && FindsEntry(limits, Run(limits, before), r, Arrivals(limits, before, KeyOf(limits, r)))
  }

  /** Every request of the run gets the ideal count. */
  ghost predicate AllIdeal(limits: Limits, rs: seq<Request>)
    requires Known(limits, rs)
  {
    rs != [] ==>
      var own := KeyOf(limits, rs[|rs| - 1]);
      && AllIdeal(limits, rs[..|rs| - 1])
      && own in Run(limits, rs) && Run(limits, rs)[own].count == Arrivals(limits, rs, own)
  }

  lemma {:induction false} IdealRunCounts(limits: Limits, rs: seq<Request>, key: Key)
    requires Known(limits, rs) && AllIdeal(limits, rs)
    ensures Counts(Run(limits, rs), key, Arrivals(limits, rs, key))
  {
    if rs != [] { IdealRunCounts(limits, rs[..|rs| - 1], key); }
  }

  /** The swept store refines the ideal counters over a run exactly when every request finds its entry alive. */
  lemma {:induction false} IdealIff(limits: Limits, rs: seq<Request>)
    requires Known(limits, rs)
    ensures AllIdeal(limits, rs) <==> AllFind(limits, rs)
  {
    if rs != [] {
      var before, r := rs[..|rs| - 1], rs[|rs| - 1];
      IdealIff(limits, before);
      if AllIdeal(limits, before) {
        IdealRunCounts(limits, before, KeyOf(limits, r));
        NextCountIff(limits, Run(limits, before), r, Arrivals(limits, before, KeyOf(limits, r)));
      }
    }
  }

  /** Each bucket lets through exactly its first `max` arrivals. */
  lemma {:induction false} BucketAdmits(limits: Limits, rs: seq<Request>, key: Key)
    requires Known(limits, rs) && AllFind(limits, rs) && key.ns in limits
    ensures Passed(limits, rs, key) == Min(limits[key.ns].max, Arrivals(limits, rs, key))
  {
    IdealIff(limits, rs);
    if rs != [] { BucketAdmits(limits, rs[..|rs| - 1], key); }
  }

  /** A clock that never goes back, with each request inside one bucket, is enough: no entry expires inside its own bucket. */
  lemma {:induction false} NoStraddleFinds(limits: Limits, rs: seq<Request>)
    requires Known(limits, rs) && Monotone(rs) && NoStraddle(limits, rs)
    ensures AllFind(limits, rs)
  {
    if rs != [] {
      var before := rs[..|rs| - 1];
      NoStraddleFinds(limits, before);
      RunRefines(limits, before);
      ServeRefines(limits, rs, End(before));
      IdealIff(limits, before);
      IdealIff(limits, rs);
    }
  }

  /** Requests of one client let through with their bucket reading in [from, from + window). */
  function PassedIn(limits: Limits, rs: seq<Request>, ns: string, client: string, from: nat): nat
    requires Known(limits, rs) && ns in limits
  {
    if rs == [] then 0
    else
      var before, r := rs[..|rs| - 1], rs[|rs| - 1];
      PassedIn(limits, before, ns, client, from)
      + (if r.ns == ns && r.client == client && from <= r.bucketAt < from + limits[ns].windowMs
            && Admitted(limits, Run(limits, before), r) then 1 else 0)
  }

  lemma Ordered(a: nat, b: nat, w: nat)
    requires a * w < b * w
    ensures a < b
  {}

  lemma TwoBuckets(t: nat, from: nat, w: nat)
    requires w > 0 && from <= t < from + w
    ensures t / w == from / w || t / w == from / w + 1
  {
    var p, q := from / w, t / w;
    InBucket(from, w);
    InBucket(t, w);
    assert (p + 2) * w == (p + 1) * w + w;
    hide *;
    Ordered(p, q + 1, w);
    Ordered(q, p + 2, w);
  }

  lemma {:induction false} IntervalMeetsTwoBuckets(limits: Limits, rs: seq<Request>, ns: string, client: string, from: nat)
    requires Known(limits, rs) && ns in limits
    ensures var b := from / limits[ns].windowMs;
      PassedIn(limits, rs, ns, client, from) <= Passed(limits, rs, Key(ns, client, b)) + Passed(limits, rs, Key(ns, client, b + 1))
  {
    if rs != [] {
      var r := rs[|rs| - 1];
      IntervalMeetsTwoBuckets(limits, rs[..|rs| - 1], ns, client, from);
      if r.ns == ns && from <= r.bucketAt < from + limits[ns].windowMs {
        TwoBuckets(r.bucketAt, from, limits[ns].windowMs);
      }
    }
  }

  /** In any interval of one window length a client gets at most twice the maximum. */
  lemma IntervalBound(limits: Limits, rs: seq<Request>, ns: string, client: string, from: nat)
    requires Known(limits, rs) && AllFind(limits, rs) && ns in limits
    ensures PassedIn(limits, rs, ns, client, from) <= 2 * limits[ns].max
  {
    var b := from / limits[ns].windowMs;
    IntervalMeetsTwoBuckets(limits, rs, ns, client, from);
    BucketAdmits(limits, rs, Key(ns, client, b));
    BucketAdmits(limits, rs, Key(ns, client, b + 1));
  }

  /** After a request only entries that outlive its sweep remain: eviction bounds the store. */
  lemma SweptClean(limits: Limits, store: Store, r: Request, key: Key)
    requires Sound(limits) && r.ns in limits && r.sweptAt <= r.countedAt
    requires key in Serve(limits, store, r)
    ensures key == KeyOf(limits, r) || (key in store && store[key].expiresAt > r.sweptAt)
    ensures Serve(limits, store, r)[key].expiresAt > r.sweptAt
  {
  }

  // ---------------------------------------------------------------------------
  // The hypothesis is needed, and the bound is met
  // ---------------------------------------------------------------------------

  /** A request whose clock ticks into the next bucket between its readings resets the open bucket. */
  lemma StraddlingAdmitsTwice()
    ensures var limits: Limits := map["otp" := Limit(1000, 1)];
            var rs := [Request("otp", "ip", 0, 0, 0), Request("otp", "ip", 999, 1000, 1000)];
            && Known(limits, rs) && Monotone(rs) && !NoStraddle(limits, rs) && !AllFind(limits, rs)
            && Passed(limits, rs, Key("otp", "ip", 0)) == 2
  {
    var limits: Limits := map["otp" := Limit(1000, 1)];
    var a, b := Request("otp", "ip", 0, 0, 0), Request("otp", "ip", 999, 1000, 1000);
    var rs := [a, b];
    assert rs[..1] == [a] && [a][..0] == [];
    assert Run(limits, [a]) == map[Key("otp", "ip", 0) := Entry(1, 1000)];
    assert rs[1].bucketAt / 1000 == 0 && rs[1].countedAt / 1000 == 1;
    assert Sweep(Run(limits, [a]), 1000) == map[];
  }

  /** The factor two is reached: one request at the end of a bucket, one at the start of the next. */
  lemma IntervalBoundIsTight()
    ensures var limits: Limits := map["otp" := Limit(1000, 1)];
            var rs := [Request("otp", "ip", 999, 999, 999), Request("otp", "ip", 1000, 1000, 1000)];
            && Known(limits, rs) && Monotone(rs) && NoStraddle(limits, rs)
            && PassedIn(limits, rs, "otp", "ip", 999) == 2
  {
  }
}
