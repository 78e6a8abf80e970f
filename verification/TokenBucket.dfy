/** The rate limiter (app/middleware/rate_limit.py): the token bucket script, with its key expiry, and
    the middleware that runs it. Token counts and times are real numbers; there is one clock. */
module TokenBucket {
  import opened Common

  /** `rate` is in tokens per second. */
  datatype Config = Config(capacity: real, rate: real)

  /** The hash stored under a key, and when the key expires. */
  datatype Hash = Hash(tokens: real, timestamp: real, expires: real)

  /** Sensitive paths have a bucket of their own. */
  datatype Key = General(ip: string) | Sensitive(ip: string)

  predicate Sane(c: Config) {
    c.capacity > 0.0 && c.rate > 0.0
  }

  function Min(a: real, b: real): real {
    if a < b then a else b
  }

  function Max(a: real, b: real): real {
    if a < b then b else a
  }

  function Ceil(x: real): (c: int)
    ensures x <= c as real < x + 1.0
  {
    -((-x).Floor)
  }

  /** EXPIRE key, math.ceil(capacity / refill_rate) + 1 */
  function Ttl(c: Config): int
    requires Sane(c)
  {
    Ceil(c.capacity / c.rate) + 1
  }

  /** The tokens gained in a time. */
  function Gain(c: Config, elapsed: real): real {
    elapsed * c.rate
  }

  // ---------------------------------------------------------------------------------------------
  // What a run of the script means
  // ---------------------------------------------------------------------------------------------

  /** The tokens there are at a time: a missing bucket is full, others refill up to the capacity. */
  function Level(c: Config, h: Option<Hash>, now: real): real {
    if h == None then c.capacity
    else Min(c.capacity, h.value.tokens + Gain(c, Max(0.0, now - h.value.timestamp)))
  }

  /** An expired key is gone. */
  function Live(h: Option<Hash>, now: real): Option<Hash> {
    if h.Some? && h.value.expires <= now then None else h
  }

  function Allows(c: Config, h: Option<Hash>, now: real, requested: real): bool {
    Level(c, h, now) >= requested
  }

  function Left(c: Config, h: Option<Hash>, now: real, requested: real): real {
    if Allows(c, h, now, requested) then Level(c, h, now) - requested else Level(c, h, now)
  }

  function Written(c: Config, h: Option<Hash>, now: real, requested: real): Hash
    requires Sane(c)
  {
    Hash(Left(c, h, now, requested), now, now + Ttl(c) as real)
  }

  /** max(math.ceil((1 - tokens_remaining) / refill_rate), 1) */
  function RetryAfter(c: Config, left: real): int
    requires Sane(c)
  {
    var wait := Ceil((1.0 - left) / c.rate);
    if wait < 1 then 1 else wait
  }

  // ---------------------------------------------------------------------------------------------
  // What the middleware does with a request
  // ---------------------------------------------------------------------------------------------

  datatype Limits = Limits(general: Config, sensitive: Config) {
    function Of(key: Key): Config {
      if key.General? then general else sensitive
    }

    predicate AllSane() {
      Sane(general) && Sane(sensitive)
    }
  }

  datatype Arrival = Arrival(path: string, ip: string, at: real)
  datatype Response = PassedOn | TooManyRequests(retryAfter: int)
  datatype Handled = Handled(hashes: map<Key, Hash>, response: Response)

  predicate EndsWith(path: string, suffix: string) {
    |suffix| <= |path| && path[|path| - |suffix|..] == suffix
  }

  predicate Exempt(a: Arrival) {
    a.path == "/health"
  }

  function KeyFor(a: Arrival): Key {
    if EndsWith(a.path, "/auth/login") || EndsWith(a.path, "/auth/register") then Sensitive(a.ip) else General(a.ip)
  }

  function Lookup(hashes: map<Key, Hash>, key: Key): Option<Hash> {
    if key in hashes then Some(hashes[key]) else None
  }

  /** Handling a request when `seen` is what Redis finds under its key. */
  function Handle(l: Limits, hashes: map<Key, Hash>, seen: Option<Hash>, a: Arrival): Handled
    requires l.AllSane()
  {
    if Exempt(a) then Handled(hashes, PassedOn) else
      var c := l.Of(KeyFor(a));
      Handled(hashes[KeyFor(a) := Written(c, seen, a.at, 1.0)],
              if Allows(c, seen, a.at, 1.0) then PassedOn else TooManyRequests(RetryAfter(c, Level(c, seen, a.at))))
  }

  class RateLimiter {
    const limits: Limits

    /** The hashes in Redis. */
    var hashes: map<Key, Hash>

    constructor (limits: Limits)
      requires limits.AllSane()
      ensures hashes == map[] && this.limits == limits
    {
      this.limits, hashes := limits, map[];
    }

    /** The script, executed by Redis as a single operation. */
    method Script(key: Key, c: Config, now: real, requested: real) returns (allowed: bool, left: real)
      requires Sane(c)
      modifies this`hashes
      ensures var h := Live(Lookup(old(hashes), key), now);
              && allowed == Allows(c, h, now, requested) && left == Left(c, h, now, requested)
              && hashes == old(hashes)[key := Written(c, h, now, requested)]
    {
      var tokens, timestamp := c.capacity, now;
      if key in hashes && now < hashes[key].expires {
        tokens, timestamp := hashes[key].tokens, hashes[key].timestamp;
      }
      var elapsed := Max(0.0, now - timestamp);
      tokens := Min(c.capacity, tokens + elapsed * c.rate);
      allowed := false;
      if tokens >= requested {
        tokens := tokens - requested;
        allowed := true;
      }
      hashes := hashes[key := Hash(tokens, now, now + Ttl(c) as real)];
      left := tokens;
    }

    /** dispatch: what happens to a request before anything else runs. */
    method Dispatch(a: Arrival) returns (response: Response)
      requires limits.AllSane()
      modifies this`hashes
      ensures Handled(hashes, response) == Handle(limits, old(hashes), Live(Lookup(old(hashes), KeyFor(a)), a.at), a)
    {
      if Exempt(a) {
        return PassedOn;
      }
      var key := KeyFor(a);
      var c := limits.Of(key);
      var allowed, left := Script(key, c, a.at, 1.0);
      if !allowed {
        return TooManyRequests(RetryAfter(c, left));
      }
      return PassedOn;
    }
  }

  // ---------------------------------------------------------------------------------------------
  // Runs
  // ---------------------------------------------------------------------------------------------

  /** The clock does not go back. */
  predicate InOrder(arrivals: seq<Arrival>) {
    forall i, j :: 0 <= i < j < |arrivals| ==> arrivals[i].at <= arrivals[j].at
  }

  /** What the script left behind by the time `now`. */
  ghost predicate Kept(l: Limits, hashes: map<Key, Hash>, now: real)
    requires l.AllSane()
  {
    forall k :: k in hashes ==>
      && 0.0 <= hashes[k].tokens <= l.Of(k).capacity && hashes[k].timestamp <= now
      && hashes[k].expires == hashes[k].timestamp + Ttl(l.Of(k)) as real
  }

  function Next(l: Limits, hashes: map<Key, Hash>, a: Arrival): Handled
    requires l.AllSane()
  {
    Handle(l, hashes, Live(Lookup(hashes, KeyFor(a)), a.at), a)
  }

  function Responses(l: Limits, hashes: map<Key, Hash>, arrivals: seq<Arrival>): (rs: seq<Response>)
    requires l.AllSane()
    ensures |rs| == |arrivals|
    decreases |arrivals|
  {
    if arrivals == [] then [] else
      var h := Next(l, hashes, arrivals[0]);
      [h.response] + Responses(l, h.hashes, arrivals[1..])
  }

  lemma GainAdds(c: Config, x: real, y: real)
    ensures Gain(c, x + y) == Gain(c, x) + Gain(c, y)
    ensures Gain(c, 0.0) == 0.0
  {
  }

  lemma GainGrows(c: Config, x: real, y: real)
    requires Sane(c)
    ensures x <= y ==> Gain(c, x) <= Gain(c, y)
    ensures x < y ==> Gain(c, x) < Gain(c, y)
    ensures 0.0 <= x ==> 0.0 <= Gain(c, x)
  {
  }

  lemma Quotient(a: real, r: real)
    requires r > 0.0
    ensures a / r * r == a
  {
  }

  /** After the expiry, and even a second before it, a bucket that were still there would be full. */
  lemma GoneIsFull(c: Config, h: Hash, now: real)
    requires Sane(c) && 0.0 <= h.tokens && now - h.timestamp >= (Ttl(c) - 1) as real
    ensures Level(c, Some(h), now) == c.capacity
  {
    Quotient(c.capacity, c.rate);
    GainGrows(c, c.capacity / c.rate, now - h.timestamp);
    GainGrows(c, now - h.timestamp, 0.0);
    GainAdds(c, 0.0, 0.0);
    assert Gain(c, c.capacity / c.rate) == c.capacity;
    hide Gain;
  }

  /** The time to live is the least whole number of seconds, plus one, after which a bucket is full
      however empty it was left. */
  lemma ExpiryIsTight(c: Config, seconds: int)
    requires Sane(c)
    ensures Ttl(c) - 1 <= seconds <==>
              forall h: Hash :: 0.0 <= h.tokens ==> Level(c, Some(h), h.timestamp + seconds as real) == c.capacity
  {
    if Ttl(c) - 1 <= seconds {
      forall h: Hash | 0.0 <= h.tokens
        ensures Level(c, Some(h), h.timestamp + seconds as real) == c.capacity
      {
        GoneIsFull(c, h, h.timestamp + seconds as real);
      }
    } else {
      EmptiedNotFull(c, seconds);
    }
    hide Level, Ttl;
  }

  lemma EmptiedNotFull(c: Config, seconds: int)
    requires Sane(c) && seconds < Ttl(c) - 1
    ensures Level(c, Some(Hash(0.0, 0.0, 0.0)), 0.0 + seconds as real) < c.capacity
  {
    Quotient(c.capacity, c.rate);
    GainGrows(c, seconds as real, c.capacity / c.rate);
    GainGrows(c, 0.0, c.capacity / c.rate);
    GainAdds(c, 0.0, 0.0);
    assert Gain(c, c.capacity / c.rate) == c.capacity;
    hide Gain;
  }

  lemma LiveLevel(c: Config, h: Option<Hash>, now: real)
    requires Sane(c) && (h.Some? ==> 0.0 <= h.value.tokens && h.value.expires == h.value.timestamp + Ttl(c) as real)
    ensures Level(c, Live(h, now), now) == Level(c, h, now)
  {
    if h.Some? && h.value.expires <= now {
      GoneIsFull(c, h.value, now);
    }
  }

  lemma LevelBounds(c: Config, h: Option<Hash>, now: real)
    requires Sane(c) && (h.Some? ==> 0.0 <= h.value.tokens)
    ensures 0.0 <= Level(c, h, now) <= c.capacity
  {
    if h.Some? {
      GainGrows(c, Max(0.0, now - h.value.timestamp), 0.0);
      hide Gain;
    }
  }

  /** Between two times a bucket gains at most what the rate gives. */
  lemma LevelRises(c: Config, h: Option<Hash>, now: real, later: real)
    requires Sane(c) && now <= later && (h.Some? ==> h.value.timestamp <= now && h.value.tokens <= c.capacity)
    ensures Level(c, h, later) <= Level(c, h, now) + Gain(c, later - now)
  {
    GainGrows(c, later - now, 0.0);
    if h.Some? {
      assert later - h.value.timestamp == (now - h.value.timestamp) + (later - now);
      GainAdds(c, now - h.value.timestamp, later - now);
    }
    hide Gain;
  }

  lemma StillKept(l: Limits, hashes: map<Key, Hash>, now: real, later: real)
    requires l.AllSane() && Kept(l, hashes, now) && now <= later
    ensures Kept(l, hashes, later)
  {
  }

  lemma HandledKept(l: Limits, hashes: map<Key, Hash>, seen: Option<Hash>, a: Arrival, now: real)
    requires l.AllSane() && Kept(l, hashes, now) && now <= a.at
    requires seen == None || seen == Lookup(hashes, KeyFor(a))
    ensures Kept(l, Handle(l, hashes, seen, a).hashes, a.at)
  {
    LevelBounds(l.Of(KeyFor(a)), seen, a.at);
  }

  /** What is found under a key, expired or not, amounts to the same. */
  lemma SeenIsLooked(l: Limits, hashes: map<Key, Hash>, a: Arrival, now: real)
    requires l.AllSane() && Kept(l, hashes, now) && now <= a.at
    ensures Next(l, hashes, a) == Handle(l, hashes, Lookup(hashes, KeyFor(a)), a)
    ensures Kept(l, Next(l, hashes, a).hashes, a.at)
  {
    LiveLevel(l.Of(KeyFor(a)), Lookup(hashes, KeyFor(a)), a.at);
    HandledKept(l, hashes, Lookup(hashes, KeyFor(a)), a, now);
  }

  // ---------------------------------------------------------------------------------------------
  // The rate bound
  // ---------------------------------------------------------------------------------------------

  /** The requests of one key that are passed on in a window of time. */
  function Admitted(l: Limits, hashes: map<Key, Hash>, arrivals: seq<Arrival>, key: Key, from: real, to: real): nat
    requires l.AllSane()
    decreases |arrivals|
  {
    if arrivals == [] then 0 else
      var a, h := arrivals[0], Next(l, hashes, arrivals[0]);
      Admitted(l, h.hashes, arrivals[1..], key, from, to)
      + if !Exempt(a) && KeyFor(a) == key && from <= a.at <= to && h.response == PassedOn then 1 else 0
  }

  lemma {:induction false} NoneAfter(l: Limits, hashes: map<Key, Hash>, arrivals: seq<Arrival>, key: Key, from: real, to: real)
    requires l.AllSane() && InOrder(arrivals) && (arrivals != [] ==> to < arrivals[0].at)
    ensures Admitted(l, hashes, arrivals, key, from, to) == 0
    decreases |arrivals|
  {
    if arrivals != [] {
      NoneAfter(l, Next(l, hashes, arrivals[0]).hashes, arrivals[1..], key, from, to);
    }
  }

  lemma AtOnce(c: Config, h: Hash)
    ensures Level(c, Some(h), h.timestamp) == Min(c.capacity, h.tokens)
  {
    GainAdds(c, 0.0, 0.0);
  }

  /** One request: what it spends comes out of the bucket. */
  lemma Spends(l: Limits, hashes: map<Key, Hash>, a: Arrival, key: Key, now: real)
    requires l.AllSane() && Kept(l, hashes, now) && now <= a.at
    ensures var h := Next(l, hashes, a);
            var spent := if !Exempt(a) && KeyFor(a) == key && h.response == PassedOn then 1.0 else 0.0;
            spent + Level(l.Of(key), Lookup(h.hashes, key), a.at) <= Level(l.Of(key), Lookup(hashes, key), a.at)
  {
    var c, seen := l.Of(key), Lookup(hashes, key);
    SeenIsLooked(l, hashes, a, now);
    AtOnce(c, Written(c, seen, a.at, 1.0));
    hide Level, Ttl, Next;
  }

  lemma {:induction false} SpentUntil(l: Limits, hashes: map<Key, Hash>, arrivals: seq<Arrival>, key: Key, from: real, to: real, now: real)
    requires l.AllSane() && InOrder(arrivals) && Kept(l, hashes, now) && now <= to && (arrivals != [] ==> now <= arrivals[0].at)
    ensures Admitted(l, hashes, arrivals, key, from, to) as real <= Level(l.Of(key), Lookup(hashes, key), now) + Gain(l.Of(key), to - now)
    decreases |arrivals|
  {
    var c := l.Of(key);
    LevelBounds(c, Lookup(hashes, key), now);
    GainGrows(c, to - now, 0.0);
    hide Gain, Level, Next;
    if arrivals == [] {
    } else if to < arrivals[0].at {
      NoneAfter(l, hashes, arrivals, key, from, to);
    } else {
      var a, h := arrivals[0], Next(l, hashes, arrivals[0]);
      SeenIsLooked(l, hashes, a, now);
      Spends(l, hashes, a, key, now);
      LevelRises(c, Lookup(hashes, key), now, a.at);
      SpentUntil(l, h.hashes, arrivals[1..], key, from, to, a.at);
      GainAdds(c, a.at - now, to - a.at);
      assert to - now == (a.at - now) + (to - a.at);
    }
  }

  /** Over any run, expiries included, no key is passed more than capacity + rate * T requests in any
      window of length T. */
  lemma {:induction false} RateBound(l: Limits, hashes: map<Key, Hash>, arrivals: seq<Arrival>, key: Key, from: real, to: real, now: real)
    requires l.AllSane() && InOrder(arrivals) && Kept(l, hashes, now) && (arrivals != [] ==> now <= arrivals[0].at)
    requires from <= to
    ensures Admitted(l, hashes, arrivals, key, from, to) as real <= l.Of(key).capacity + Gain(l.Of(key), to - from)
    decreases |arrivals|
  {
    var c := l.Of(key);
    GainGrows(c, to - from, 0.0);
    hide Next, Level, Gain;
    if arrivals == [] {
    } else if arrivals[0].at < from {
      SeenIsLooked(l, hashes, arrivals[0], now);
      RateBound(l, Next(l, hashes, arrivals[0]).hashes, arrivals[1..], key, from, to, arrivals[0].at);
    } else if to < arrivals[0].at {
      NoneAfter(l, hashes, arrivals, key, from, to);
    } else {
      var first := arrivals[0].at;
      StillKept(l, hashes, now, first);
      SpentUntil(l, hashes, arrivals, key, from, to, first);
      LevelBounds(c, Lookup(hashes, key), first);
      GainGrows(c, to - first, to - from);
    }
  }

  // ---------------------------------------------------------------------------------------------
  // Expiry is unobservable
  // ---------------------------------------------------------------------------------------------

  /** Runs in which the key looked up may have been lost: `gone[i]` says whether it is for the i-th
      request. */
  function Forgetting(l: Limits, hashes: map<Key, Hash>, arrivals: seq<Arrival>, gone: seq<bool>): seq<Response>
    requires l.AllSane() && |gone| == |arrivals|
    decreases |arrivals|
  {
    if arrivals == [] then [] else
      var h := Handle(l, hashes, if gone[0] then None else Lookup(hashes, KeyFor(arrivals[0])), arrivals[0]);
      [h.response] + Forgetting(l, h.hashes, arrivals[1..], gone[1..])
  }

  /** Keys are lost no earlier than one second before their time. */
  ghost predicate LostInTime(l: Limits, hashes: map<Key, Hash>, arrivals: seq<Arrival>, gone: seq<bool>)
    requires l.AllSane() && |gone| == |arrivals|
    decreases |arrivals|
  {
    arrivals != [] ==>
      var key, at := KeyFor(arrivals[0]), arrivals[0].at;
      && (gone[0] && key in hashes ==> at - hashes[key].timestamp >= (Ttl(l.Of(key)) - 1) as real)
      && LostInTime(l, Handle(l, hashes, if gone[0] then None else Lookup(hashes, key), arrivals[0]).hashes, arrivals[1..], gone[1..])
  }

  /** Whichever keys are lost in time, and whether any are, the answers are the same, Retry-After
      included: those of buckets that never expire, and those of the real ones. */
  lemma {:induction false} ExpiryIsUnobservable(l: Limits, hashes: map<Key, Hash>, arrivals: seq<Arrival>, gone: seq<bool>, now: real)
    requires l.AllSane() && InOrder(arrivals) && Kept(l, hashes, now) && (arrivals != [] ==> now <= arrivals[0].at)
    requires |gone| == |arrivals| && LostInTime(l, hashes, arrivals, gone)
    ensures Forgetting(l, hashes, arrivals, gone) == Responses(l, hashes, arrivals)
    decreases |arrivals|
  {
    if arrivals != [] {
      var a := arrivals[0];
      var key := KeyFor(a);
      SeenIsLooked(l, hashes, a, now);
      if gone[0] && key in hashes {
        GoneIsFull(l.Of(key), hashes[key], a.at);
      }
      ExpiryIsUnobservable(l, Next(l, hashes, a).hashes, arrivals[1..], gone[1..], a.at);
    }
  }

  // ---------------------------------------------------------------------------------------------
  // Denials are unobservable
  // ---------------------------------------------------------------------------------------------

  function Without<T>(xs: seq<T>, drop: seq<bool>): seq<T>
    requires |drop| == |xs|
  {
    if xs == [] then [] else (if drop[0] then [] else [xs[0]]) + Without(xs[1..], drop[1..])
  }

  /** Every bucket will have the same level from now on. */
  ghost predicate SameLevels(l: Limits, hs: map<Key, Hash>, hs': map<Key, Hash>, now: real) {
    forall k: Key, t: real :: now <= t ==> Level(l.Of(k), Lookup(hs, k), t) == Level(l.Of(k), Lookup(hs', k), t)
  }

  /** Capped refills compose: refilling in two steps is refilling once. */
  lemma RefillsCompose(c: Config, h: Option<Hash>, now: real, later: real, expires: real)
    requires Sane(c) && now <= later && (h.Some? ==> h.value.timestamp <= now && h.value.tokens <= c.capacity)
    ensures Level(c, Some(Hash(Level(c, h, now), now, expires)), later) == Level(c, h, later)
  {
    GainGrows(c, later - now, 0.0);
    if h.Some? {
      assert later - h.value.timestamp == (now - h.value.timestamp) + (later - now);
      GainAdds(c, now - h.value.timestamp, later - now);
    }
    hide Gain;
  }

  /** A denied request leaves every level as it was. */
  lemma DenialKeepsLevels(l: Limits, hashes: map<Key, Hash>, a: Arrival, now: real)
    requires l.AllSane() && Kept(l, hashes, now) && now <= a.at && Next(l, hashes, a).response != PassedOn
    ensures SameLevels(l, Next(l, hashes, a).hashes, hashes, a.at)
  {
    SeenIsLooked(l, hashes, a, now);
    var key := KeyFor(a);
    var c := l.Of(key);
    forall k: Key, t: real | a.at <= t
      ensures Level(l.Of(k), Lookup(Next(l, hashes, a).hashes, k), t) == Level(l.Of(k), Lookup(hashes, k), t)
    {
      if k == key {
        RefillsCompose(c, Lookup(hashes, k), a.at, t, a.at + Ttl(c) as real);
      }
    }
  }

  /** The same request meets the same levels: same answer, and levels agree again. */
  lemma SameStep(l: Limits, hs: map<Key, Hash>, hs': map<Key, Hash>, a: Arrival, now: real)
    requires l.AllSane() && Kept(l, hs, now) && Kept(l, hs', now) && now <= a.at && SameLevels(l, hs, hs', now)
    ensures Next(l, hs, a).response == Next(l, hs', a).response
    ensures SameLevels(l, Next(l, hs, a).hashes, Next(l, hs', a).hashes, a.at)
  {
    SeenIsLooked(l, hs, a, now);
    SeenIsLooked(l, hs', a, now);
    hide Level, Next, Ttl, RetryAfter;
    assert Level(l.Of(KeyFor(a)), Lookup(hs, KeyFor(a)), a.at) == Level(l.Of(KeyFor(a)), Lookup(hs', KeyFor(a)), a.at);
    forall k: Key, t: real | a.at <= t
      ensures Level(l.Of(k), Lookup(Next(l, hs, a).hashes, k), t) == Level(l.Of(k), Lookup(Next(l, hs', a).hashes, k), t)
    {
      if k != KeyFor(a) || Exempt(a) {
        assert Level(l.Of(k), Lookup(hs, k), t) == Level(l.Of(k), Lookup(hs', k), t);
      }
    }
  }

  lemma SameFromNow(l: Limits, hs: map<Key, Hash>, hs': map<Key, Hash>, now: real, later: real)
    requires SameLevels(l, hs, hs', now) && now <= later
    ensures SameLevels(l, hs, hs', later)
  {
  }

  lemma SameEitherWay(l: Limits, hs: map<Key, Hash>, between: map<Key, Hash>, hs': map<Key, Hash>, now: real)
    requires SameLevels(l, hs, between, now) && SameLevels(l, between, hs', now)
    ensures SameLevels(l, hs, hs', now)
  {
    hide Level;
    forall k: Key, t: real | now <= t
      ensures Level(l.Of(k), Lookup(hs, k), t) == Level(l.Of(k), Lookup(hs', k), t)
    {
      assert Level(l.Of(k), Lookup(hs, k), t) == Level(l.Of(k), Lookup(between, k), t);
    }
  }

  lemma {:induction false} DenialsFrom(l: Limits, hs: map<Key, Hash>, hs': map<Key, Hash>, arrivals: seq<Arrival>, drop: seq<bool>, now: real)
    requires l.AllSane() && InOrder(arrivals) && Kept(l, hs, now) && Kept(l, hs', now) && SameLevels(l, hs, hs', now)
    requires |drop| == |arrivals| && (arrivals != [] ==> now <= arrivals[0].at)
    requires forall i :: 0 <= i < |drop| && drop[i] ==> Responses(l, hs, arrivals)[i] != PassedOn
    ensures Responses(l, hs', Without(arrivals, drop)) == Without(Responses(l, hs, arrivals), drop)
    decreases |arrivals|
  {
    if arrivals != [] {
      var a, rest := arrivals[0], arrivals[1..];
      var h := Next(l, hs, a).hashes;
      SeenIsLooked(l, hs, a, now);
      SeenIsLooked(l, hs', a, now);
      assert Responses(l, hs, arrivals)[1..] == Responses(l, h, rest);
      SameFromNow(l, hs, hs', now, a.at);
      hide Next, SameLevels, Kept, Handle;
      if drop[0] {
        assert Responses(l, hs, arrivals)[0] != PassedOn;
        DenialKeepsLevels(l, hs, a, now);
        SameEitherWay(l, h, hs, hs', a.at);
        StillKept(l, hs', now, a.at);
        DenialsFrom(l, h, hs', rest, drop[1..], a.at);
        assert Without(arrivals, drop) == Without(rest, drop[1..]);
        assert Without(Responses(l, hs, arrivals), drop) == Without(Responses(l, h, rest), drop[1..]);
      } else {
        SameStep(l, hs, hs', a, now);
        DenialsFrom(l, h, Next(l, hs', a).hashes, rest, drop[1..], a.at);
        assert ([a] + Without(rest, drop[1..]))[1..] == Without(rest, drop[1..]);
      }
    }
  }

  /** Deleting any of the denied requests from a run, or all of them, changes no other answer. */
  lemma DenialsAreUnobservable(l: Limits, hashes: map<Key, Hash>, arrivals: seq<Arrival>, drop: seq<bool>, now: real)
    requires l.AllSane() && InOrder(arrivals) && Kept(l, hashes, now) && (arrivals != [] ==> now <= arrivals[0].at)
    requires |drop| == |arrivals|
    requires forall i :: 0 <= i < |drop| && drop[i] ==> Responses(l, hashes, arrivals)[i] != PassedOn
    ensures Responses(l, hashes, Without(arrivals, drop)) == Without(Responses(l, hashes, arrivals), drop)
  {
    DenialsFrom(l, hashes, hashes, arrivals, drop, now);
  }

  // ---------------------------------------------------------------------------------------------
  // Retry-After
  // ---------------------------------------------------------------------------------------------

  lemma WaitIsEnough(c: Config, left: real, wait: int)
    requires Sane(c) && left < 1.0
    ensures 1.0 <= left + Gain(c, wait as real) <==> RetryAfter(c, left) <= wait
    ensures RetryAfter(c, left) == Ceil((1.0 - left) / c.rate)
  {
    var exact := (1.0 - left) / c.rate;
    Quotient(1.0 - left, c.rate);
    assert Gain(c, exact) == 1.0 - left;
    GainGrows(c, exact, wait as real);
    GainGrows(c, wait as real, exact);
    GainGrows(c, exact, 0.0);
    GainAdds(c, 0.0, 0.0);
    hide Gain;
  }

  /** What a run leaves behind. */
  function HashesAfter(l: Limits, hashes: map<Key, Hash>, arrivals: seq<Arrival>): map<Key, Hash>
    requires l.AllSane()
    decreases |arrivals|
  {
    if arrivals == [] then hashes else HashesAfter(l, Next(l, hashes, arrivals[0]).hashes, arrivals[1..])
  }

  /** No request spends from the bucket of `key`: each is exempt, on another key, or denied. */
  ghost predicate Spared(l: Limits, hashes: map<Key, Hash>, arrivals: seq<Arrival>, key: Key)
    requires l.AllSane()
  {
    forall i :: 0 <= i < |arrivals| ==> Exempt(arrivals[i]) || KeyFor(arrivals[i]) != key || Responses(l, hashes, arrivals)[i] != PassedOn
  }

  /** A bucket nothing is spent from refills as if it were left alone. */
  lemma {:induction false} SparedRefills(l: Limits, hashes: map<Key, Hash>, arrivals: seq<Arrival>, key: Key, now: real, later: real)
    requires l.AllSane() && InOrder(arrivals) && Kept(l, hashes, now) && now <= later
    requires forall i :: 0 <= i < |arrivals| ==> now <= arrivals[i].at <= later
    requires Spared(l, hashes, arrivals, key)
    ensures Kept(l, HashesAfter(l, hashes, arrivals), later)
    ensures Level(l.Of(key), Lookup(HashesAfter(l, hashes, arrivals), key), later) == Level(l.Of(key), Lookup(hashes, key), later)
    decreases |arrivals|
  {
    if arrivals == [] {
      StillKept(l, hashes, now, later);
    } else {
      var a := arrivals[0];
      var h := Next(l, hashes, a).hashes;
      SeenIsLooked(l, hashes, a, now);
      assert Responses(l, hashes, arrivals)[0] == Next(l, hashes, a).response;
      forall i | 0 <= i < |arrivals[1..]|
        ensures Exempt(arrivals[1..][i]) || KeyFor(arrivals[1..][i]) != key || Responses(l, h, arrivals[1..])[i] != PassedOn
      {
        assert arrivals[1..][i] == arrivals[i + 1] && Responses(l, h, arrivals[1..])[i] == Responses(l, hashes, arrivals)[i + 1];
      }
      SparedRefills(l, h, arrivals[1..], key, a.at, later);
      if !Exempt(a) && KeyFor(a) == key {
        DenialKeepsLevels(l, hashes, a, now);
      } else {
        assert Lookup(h, key) == Lookup(hashes, key);
      }
      hide Level, Ttl, RetryAfter, Kept;
    }
  }

  /** The header is exact: whatever else arrives meanwhile, a denied client whose key is passed nothing
      for a whole number of seconds is then passed on exactly if that number is at least the one
      returned, provided a bucket can hold a token at all. */
  lemma RetryAfterIsExact(l: Limits, hashes: map<Key, Hash>, a: Arrival, between: seq<Arrival>, b: Arrival, wait: int, now: real)
    requires l.AllSane() && Kept(l, hashes, now) && now <= a.at
    requires Next(l, hashes, a).response.TooManyRequests?
    requires 1 <= wait && b.at == a.at + wait as real && KeyFor(b) == KeyFor(a) && !Exempt(b)
    requires InOrder([a] + between + [b]) && Spared(l, Next(l, hashes, a).hashes, between, KeyFor(a))
    ensures Next(l, HashesAfter(l, Next(l, hashes, a).hashes, between), b).response == PassedOn
       <==> 1.0 <= l.Of(KeyFor(a)).capacity && Next(l, hashes, a).response.retryAfter <= wait
  {
    var c, h := l.Of(KeyFor(a)), Next(l, hashes, a).hashes;
    var left := Level(c, Lookup(hashes, KeyFor(a)), a.at);
    SeenIsLooked(l, hashes, a, now);
    Between(a, between, b);
    SparedRefills(l, h, between, KeyFor(a), a.at, b.at);
    SeenIsLooked(l, HashesAfter(l, h, between), b, b.at);
    WaitIsEnough(c, left, wait);
    LevelAfter(c, Lookup(h, KeyFor(a)), left, a.at, wait);
    hide Level, Next, Ttl, RetryAfter, Spared, HashesAfter, Kept;
  }

  lemma Between(a: Arrival, between: seq<Arrival>, b: Arrival)
    requires InOrder([a] + between + [b])
    ensures InOrder(between) && forall i :: 0 <= i < |between| ==> a.at <= between[i].at <= b.at
  {
    var all := [a] + between + [b];
    assert all[0] == a && all[|all| - 1] == b && forall i :: 0 <= i < |between| ==> all[i + 1] == between[i];
  }

  lemma LevelAfter(c: Config, h: Option<Hash>, left: real, at: real, wait: int)
    requires h.Some? && h.value.tokens == left && h.value.timestamp == at && 1 <= wait
    ensures Level(c, h, at + wait as real) == Min(c.capacity, left + Gain(c, wait as real))
  {
  }
}
