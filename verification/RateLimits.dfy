/** What the rate limiter does to an address, told by paths and times alone: which requests are passed
    on, exactly; that sign-in paths and the others, and different addresses, do not affect each other;
    and that health checks are free. */
module RateLimits {
  import opened Common
  import opened TokenBucket

  /** The paths with the stricter limit: these endings, whatever comes before. */
  ghost predicate SignIn(path: string) {
    exists prefix: string :: path == prefix + "/auth/login" || path == prefix + "/auth/register"
  }

  /** A request of this address that is no health check, on a sign-in path or on another. */
  ghost predicate From(a: Arrival, ip: string, signIn: bool) {
    a.ip == ip && a.path != "/health" && SignIn(a.path) == signIn
  }

  function KeyOf(ip: string, signIn: bool): Key {
    if signIn then Sensitive(ip) else General(ip)
  }

  /** The limit that applies. */
  function LimitOn(l: Limits, signIn: bool): Config {
    if signIn then l.sensitive else l.general
  }

  /** How many of these requests were passed on. */
  ghost function Passed(arrivals: seq<Arrival>, responses: seq<Response>, ip: string, signIn: bool): nat
    requires |arrivals| == |responses|
  {
    if arrivals == [] then 0 else
      (if From(arrivals[0], ip, signIn) && responses[0] == PassedOn then 1 else 0)
      + Passed(arrivals[1..], responses[1..], ip, signIn)
  }

  // ---------------------------------------------------------------------------------------------
  // Paths and buckets
  // ---------------------------------------------------------------------------------------------

  lemma EndsWithMeaning(path: string, suffix: string)
    ensures EndsWith(path, suffix) <==> exists prefix: string :: path == prefix + suffix
  {
    if EndsWith(path, suffix) {
      assert path == path[..|path| - |suffix|] + suffix;
    }
    if prefix: string :| path == prefix + suffix {
      assert path[|path| - |suffix|..] == suffix;
    }
  }

  lemma KeyMeaning(a: Arrival, ip: string, signIn: bool)
    ensures From(a, ip, signIn) <==> !Exempt(a) && KeyFor(a) == KeyOf(ip, signIn)
  {
    EndsWithMeaning(a.path, "/auth/login");
    EndsWithMeaning(a.path, "/auth/register");
    hide EndsWith;
  }

  lemma LimitMeaning(l: Limits, ip: string, signIn: bool)
    ensures l.Of(KeyOf(ip, signIn)) == LimitOn(l, signIn)
  {
  }

  /** Health checks, and only they, pass without touching a bucket. Every other request is passed on if
      its own bucket holds a token, which it then takes; if not, it takes nothing. No other bucket is
      touched. */
  lemma WhatOneRequestDoes(l: Limits, hashes: map<Key, Hash>, a: Arrival, ip: string, signIn: bool, now: real)
    requires l.AllSane() && Kept(l, hashes, now) && now <= a.at
    ensures a.path == "/health" ==> Next(l, hashes, a) == Handled(hashes, PassedOn)
    ensures var key, c, next := KeyOf(ip, signIn), LimitOn(l, signIn), Next(l, hashes, a);
            && (From(a, ip, signIn) ==> (next.response == PassedOn <==> 1.0 <= Level(c, Lookup(hashes, key), a.at)))
            && Level(c, Lookup(next.hashes, key), a.at)
               == Level(c, Lookup(hashes, key), a.at) - (if From(a, ip, signIn) && next.response == PassedOn then 1.0 else 0.0)
    ensures !From(a, ip, signIn) ==> Lookup(Next(l, hashes, a).hashes, KeyOf(ip, signIn)) == Lookup(hashes, KeyOf(ip, signIn))
    ensures Kept(l, Next(l, hashes, a).hashes, a.at)
  {
    var key, c := KeyOf(ip, signIn), LimitOn(l, signIn);
    KeyMeaning(a, ip, signIn);
    SeenIsLooked(l, hashes, a, now);
    LevelBounds(c, Lookup(hashes, key), a.at);
    AtOnce(c, Written(c, Lookup(hashes, key), a.at, 1.0));
    hide Level, Ttl, Next, From, KeyFor, Kept;
  }

  // ---------------------------------------------------------------------------------------------
  // Exactly which requests are passed on
  // ---------------------------------------------------------------------------------------------

  /** A bucket's level some time later. */
  lemma LevelLater(c: Config, h: Option<Hash>, now: real, later: real)
    requires Sane(c) && now <= later && (h.Some? ==> h.value.timestamp <= now && h.value.tokens <= c.capacity)
    ensures Level(c, h, later) == Min(c.capacity, Level(c, h, now) + Gain(c, later - now))
  {
    RefillsCompose(c, h, now, later, now);
    hide Gain;
  }

  /** `passed` requests, and `more` tokens, within a time. */
  predicate Within(c: Config, passed: nat, more: real, elapsed: real) {
    passed as real + more <= c.capacity + c.rate * elapsed
  }

  /** With `x` tokens still in the bucket, the requests passed on from each arrival on are within what
      a full bucket gives since. */
  ghost predicate Fit(c: Config, arrivals: seq<Arrival>, responses: seq<Response>, ip: string, signIn: bool, later: real, x: real)
    requires |arrivals| == |responses|
  {
    arrivals != [] ==>
      && Within(c, Passed(arrivals, responses, ip, signIn), x, later - arrivals[0].at)
      && Fit(c, arrivals[1..], responses[1..], ip, signIn, later, x)
  }

  ghost predicate FitsFrom(c: Config, arrivals: seq<Arrival>, responses: seq<Response>, i: nat, ip: string, signIn: bool, later: real, x: real)
    requires |arrivals| == |responses| && i < |arrivals|
  {
    Within(c, Passed(arrivals[i..], responses[i..], ip, signIn), x, later - arrivals[i].at)
  }

  lemma FitsFromTail(c: Config, arrivals: seq<Arrival>, responses: seq<Response>, i: nat, ip: string, signIn: bool, later: real, x: real)
    requires |arrivals| == |responses| && i + 1 < |arrivals|
    ensures FitsFrom(c, arrivals[1..], responses[1..], i, ip, signIn, later, x) <==> FitsFrom(c, arrivals, responses, i + 1, ip, signIn, later, x)
  {
    assert arrivals[1..][i..] == arrivals[i + 1..] && responses[1..][i..] == responses[i + 1..];
    hide Within, Passed;
  }

  lemma {:induction false} FitMeaning(c: Config, arrivals: seq<Arrival>, responses: seq<Response>, ip: string, signIn: bool, later: real, x: real)
    requires |arrivals| == |responses|
    ensures Fit(c, arrivals, responses, ip, signIn, later, x) <==>
              forall i :: 0 <= i < |arrivals| ==> FitsFrom(c, arrivals, responses, i, ip, signIn, later, x)
  {
    if arrivals != [] {
      FitMeaning(c, arrivals[1..], responses[1..], ip, signIn, later, x);
      assert FitsFrom(c, arrivals, responses, 0, ip, signIn, later, x)
        <==> Within(c, Passed(arrivals, responses, ip, signIn), x, later - arrivals[0].at) by {
        assert arrivals[0..] == arrivals && responses[0..] == responses;
      }
      hide Within, Passed, FitsFrom;
      forall i | 0 <= i < |arrivals| - 1
        ensures FitsFrom(c, arrivals[1..], responses[1..], i, ip, signIn, later, x) <==> FitsFrom(c, arrivals, responses, i + 1, ip, signIn, later, x)
      {
        FitsFromTail(c, arrivals, responses, i, ip, signIn, later, x);
      }
      if Fit(c, arrivals, responses, ip, signIn, later, x) {
        forall i | 0 <= i < |arrivals|
          ensures FitsFrom(c, arrivals, responses, i, ip, signIn, later, x)
        {
          assert i > 0 ==> FitsFrom(c, arrivals[1..], responses[1..], i - 1, ip, signIn, later, x);
        }
      }
    }
  }

  lemma SplitFits(c: Config, arrivals: seq<Arrival>, responses: seq<Response>, ip: string, signIn: bool, later: real, x: real)
    requires |arrivals| == |responses| && arrivals != []
    ensures Fit(c, arrivals, responses, ip, signIn, later, x) <==>
              && Passed(arrivals, responses, ip, signIn) as real + x <= c.capacity + Gain(c, later - arrivals[0].at)
              && Fit(c, arrivals[1..], responses[1..], ip, signIn, later, x)
    ensures Passed(arrivals, responses, ip, signIn)
         == Passed(arrivals[1..], responses[1..], ip, signIn) + if From(arrivals[0], ip, signIn) && responses[0] == PassedOn then 1 else 0
  {
    hide From;
  }

  /** A bucket refilled up to its capacity, from which one request may have taken a token. */
  lemma StepFits(c: Config, before: real, after: real, all: nat, rest: nat, x: real, first: real, second: real)
    requires rest <= all && after == Min(c.capacity, before + Gain(c, first)) - (all - rest) as real
    ensures rest as real + x <= after + Gain(c, second) <==>
              && all as real + x <= c.capacity + Gain(c, second)
              && all as real + x <= before + Gain(c, first + second)
  {
    GainAdds(c, first, second);
    hide Gain;
  }

  /** Everything passed, and `x` tokens, fit: into the level at the start and what has been gained since,
      and into a full bucket at each moment. */
  ghost predicate AllFits(c: Config, level: real, arrivals: seq<Arrival>, responses: seq<Response>, ip: string, signIn: bool,
                          now: real, later: real, x: real)
    requires |arrivals| == |responses|
  {
    && Passed(arrivals, responses, ip, signIn) as real + x <= level + Gain(c, later - now)
    && Fit(c, arrivals, responses, ip, signIn, later, x)
  }

  lemma AllFitsStep(c: Config, before: real, after: real, arrivals: seq<Arrival>, responses: seq<Response>, ip: string, signIn: bool,
                    now: real, later: real, x: real)
    requires |arrivals| == |responses| && arrivals != []
    requires after == Min(c.capacity, before + Gain(c, arrivals[0].at - now))
                      - (if From(arrivals[0], ip, signIn) && responses[0] == PassedOn then 1.0 else 0.0)
    ensures AllFits(c, before, arrivals, responses, ip, signIn, now, later, x)
       <==> AllFits(c, after, arrivals[1..], responses[1..], ip, signIn, arrivals[0].at, later, x)
  {
    SplitFits(c, arrivals, responses, ip, signIn, later, x);
    var all, rest := Passed(arrivals, responses, ip, signIn), Passed(arrivals[1..], responses[1..], ip, signIn);
    assert later - now == (arrivals[0].at - now) + (later - arrivals[0].at);
    hide Fit, Passed, From;
    StepFits(c, before, after, all, rest, x, arrivals[0].at - now, later - arrivals[0].at);
    hide Gain;
  }

  lemma NothingFits(c: Config, h: Option<Hash>, ip: string, signIn: bool, now: real, later: real, x: real)
    requires Sane(c) && now <= later && (h.Some? ==> h.value.timestamp <= now && h.value.tokens <= c.capacity) && x <= c.capacity
    ensures x <= Level(c, h, later) <==> AllFits(c, Level(c, h, now), [], [], ip, signIn, now, later, x)
  {
    LevelLater(c, h, now, later);
    hide Level, Gain;
  }

  /** After a run a bucket holds `x` tokens exactly if everything passed fits. */
  lemma {:induction false} LevelIsWhatFits(l: Limits, hashes: map<Key, Hash>, arrivals: seq<Arrival>, ip: string, signIn: bool,
                                           now: real, later: real, x: real)
    requires l.AllSane() && InOrder(arrivals) && Kept(l, hashes, now) && now <= later
    requires forall i :: 0 <= i < |arrivals| ==> now <= arrivals[i].at <= later
    requires x <= LimitOn(l, signIn).capacity
    ensures var c, key, rs := LimitOn(l, signIn), KeyOf(ip, signIn), Responses(l, hashes, arrivals);
            x <= Level(c, Lookup(HashesAfter(l, hashes, arrivals), key), later)
            <==> AllFits(c, Level(c, Lookup(hashes, key), now), arrivals, rs, ip, signIn, now, later, x)
    ensures Kept(l, HashesAfter(l, hashes, arrivals), later)
    decreases |arrivals|
  {
    var c, key, rs := LimitOn(l, signIn), KeyOf(ip, signIn), Responses(l, hashes, arrivals);
    if arrivals == [] {
      NothingFits(c, Lookup(hashes, key), ip, signIn, now, later, x);
      StillKept(l, hashes, now, later);
      hide Level, Kept, AllFits;
    } else {
      var a, rest := arrivals[0], arrivals[1..];
      var h := Next(l, hashes, a).hashes;
      WhatOneRequestDoes(l, hashes, a, ip, signIn, now);
      LevelLater(c, Lookup(hashes, key), now, a.at);
      hide Level, Next, Kept, From, Gain, KeyOf, AllFits, LimitOn, Lookup;
      LevelIsWhatFits(l, h, rest, ip, signIn, a.at, later, x);
      AllFitsStep(c, Level(c, Lookup(hashes, key), now), Level(c, Lookup(h, key), a.at), arrivals, rs, ip, signIn, now, later, x);
    }
  }

  lemma {:induction false} ResponsesAt(l: Limits, hashes: map<Key, Hash>, arrivals: seq<Arrival>, j: nat)
    requires l.AllSane() && j < |arrivals|
    ensures Responses(l, hashes, arrivals)[j] == Next(l, HashesAfter(l, hashes, arrivals[..j]), arrivals[j]).response
    decreases |arrivals|
  {
    if j > 0 {
      var h := Next(l, hashes, arrivals[0]).hashes;
      ResponsesAt(l, h, arrivals[1..], j - 1);
      assert arrivals[..j][1..] == arrivals[1..][..j - 1];
      hide Next;
    }
  }

  /** What was passed on from the i-th request up to the j-th, and the j-th, is within the limit. */
  ghost predicate WindowWithin(c: Config, arrivals: seq<Arrival>, responses: seq<Response>, i: nat, j: nat, ip: string, signIn: bool)
    requires |arrivals| == |responses| && i <= j < |arrivals|
  {
    Within(c, Passed(arrivals[i..j], responses[i..j], ip, signIn), 1.0, arrivals[j].at - arrivals[i].at)
  }

  lemma WindowOfFront(c: Config, arrivals: seq<Arrival>, responses: seq<Response>, i: nat, j: nat, ip: string, signIn: bool)
    requires |arrivals| == |responses| && i < j < |arrivals|
    ensures FitsFrom(c, arrivals[..j], responses[..j], i, ip, signIn, arrivals[j].at, 1.0)
       <==> WindowWithin(c, arrivals, responses, i, j, ip, signIn)
  {
    assert arrivals[..j][i..] == arrivals[i..j] && responses[..j][i..] == responses[i..j];
    hide Within, Passed;
  }

  lemma Windows(c: Config, arrivals: seq<Arrival>, responses: seq<Response>, j: nat, ip: string, signIn: bool)
    requires |arrivals| == |responses| && j < |arrivals|
    ensures (forall i :: 0 <= i <= j ==> WindowWithin(c, arrivals, responses, i, j, ip, signIn)) <==>
              Within(c, 0, 1.0, 0.0) && Fit(c, arrivals[..j], responses[..j], ip, signIn, arrivals[j].at, 1.0)
  {
    var front, answers, at := arrivals[..j], responses[..j], arrivals[j].at;
    assert WindowWithin(c, arrivals, responses, j, j, ip, signIn) <==> Within(c, 0, 1.0, 0.0) by {
      assert arrivals[j..j] == [] && responses[j..j] == [] && Passed([], [], ip, signIn) == 0;
    }
    hide Within, Passed, Fit, WindowWithin, FitsFrom;
    if forall i :: 0 <= i < j ==> WindowWithin(c, arrivals, responses, i, j, ip, signIn) {
      WindowsFit(c, arrivals, responses, j, ip, signIn);
    }
    if Fit(c, front, answers, ip, signIn, at, 1.0) {
      forall i | 0 <= i < j
        ensures WindowWithin(c, arrivals, responses, i, j, ip, signIn)
      {
        FitMeaning(c, front, answers, ip, signIn, at, 1.0);
        WindowOfFront(c, arrivals, responses, i, j, ip, signIn);
      }
    }
  }

  lemma WindowsFit(c: Config, arrivals: seq<Arrival>, responses: seq<Response>, j: nat, ip: string, signIn: bool)
    requires |arrivals| == |responses| && j < |arrivals|
    requires forall i :: 0 <= i < j ==> WindowWithin(c, arrivals, responses, i, j, ip, signIn)
    ensures Fit(c, arrivals[..j], responses[..j], ip, signIn, arrivals[j].at, 1.0)
  {
    var front, answers, at := arrivals[..j], responses[..j], arrivals[j].at;
    FitMeaning(c, front, answers, ip, signIn, at, 1.0);
    hide Within, Passed, Fit, WindowWithin, FitsFrom;
    forall i | 0 <= i < |front|
      ensures FitsFrom(c, front, answers, i, ip, signIn, at, 1.0)
    {
      WindowOfFront(c, arrivals, responses, i, j, ip, signIn);
    }
  }

  /** Starting from full buckets, what held at the start says nothing more. */
  lemma FullFits(l: Limits, arrivals: seq<Arrival>, ip: string, signIn: bool, later: real, now: real)
    requires l.AllSane() && InOrder(arrivals) && now <= later && (arrivals != [] ==> now == arrivals[0].at)
    requires forall i :: 0 <= i < |arrivals| ==> now <= arrivals[i].at <= later
    requires 1.0 <= LimitOn(l, signIn).capacity
    ensures var c, rs := LimitOn(l, signIn), Responses(l, map[], arrivals);
            1.0 <= Level(c, Lookup(HashesAfter(l, map[], arrivals), KeyOf(ip, signIn)), later) <==> Fit(c, arrivals, rs, ip, signIn, later, 1.0)
  {
    var c, rs := LimitOn(l, signIn), Responses(l, map[], arrivals);
    LevelIsWhatFits(l, map[], arrivals, ip, signIn, now, later, 1.0);
    GainGrows(c, later - now, 0.0);
    assert Within(c, Passed(arrivals, rs, ip, signIn), 1.0, later - now)
      <==> Passed(arrivals, rs, ip, signIn) as real + 1.0 <= c.capacity + Gain(c, later - now);
    if arrivals == [] {
      assert Passed(arrivals, rs, ip, signIn) == 0;
    }
    hide Next, From, Responses, HashesAfter, Passed, Gain, Within;
  }

  /** From empty buckets, exactly the requests that fit are passed on: the j-th request of an address to
      one kind of path is, if and only if together with those passed on in every window that ends with
      it, it stays within capacity + rate * length. */
  lemma PassedOnExactlyIfFits(l: Limits, arrivals: seq<Arrival>, j: nat, ip: string, signIn: bool)
    requires l.AllSane() && InOrder(arrivals) && j < |arrivals| && From(arrivals[j], ip, signIn)
    ensures var c, rs := if signIn then l.sensitive else l.general, Responses(l, map[], arrivals);
            rs[j] == PassedOn <==> forall i :: 0 <= i <= j ==> WindowWithin(c, arrivals, rs, i, j, ip, signIn)
  {
    var c, key, rs := LimitOn(l, signIn), KeyOf(ip, signIn), Responses(l, map[], arrivals);
    var front, a, now := arrivals[..j], arrivals[j], arrivals[0].at;
    var none: map<Key, Hash> := map[];
    var left := HashesAfter(l, none, front);
    ResponsesAt(l, none, arrivals, j);
    PrefixResponses(l, none, arrivals, j);
    LevelIsWhatFits(l, none, front, ip, signIn, now, a.at, 0.0);
    LevelBounds(c, Lookup(left, key), a.at);
    WhatOneRequestDoes(l, left, a, ip, signIn, a.at);
    Windows(c, arrivals, rs, j, ip, signIn);
    if 1.0 <= c.capacity {
      FullFits(l, front, ip, signIn, a.at, now);
    }
    hide Next, Kept, From, Responses, HashesAfter, Passed, Fit, WindowWithin, Gain, Level;
  }

  /** In any window of a run, from any buckets, an address is passed at most capacity + rate * length
      requests of either kind. */
  lemma WindowBound(l: Limits, hashes: map<Key, Hash>, arrivals: seq<Arrival>, i: nat, k: nat, ip: string, signIn: bool, now: real)
    requires l.AllSane() && InOrder(arrivals) && Kept(l, hashes, now) && i <= k < |arrivals| && now <= arrivals[0].at
    ensures var c, rs := if signIn then l.sensitive else l.general, Responses(l, hashes, arrivals);
            Within(c, Passed(arrivals[i..k + 1], rs[i..k + 1], ip, signIn), 0.0, arrivals[k].at - arrivals[i].at)
  {
    var c, rs, front, at := LimitOn(l, signIn), Responses(l, hashes, arrivals), arrivals[..k + 1], arrivals[k].at;
    PrefixResponses(l, hashes, arrivals, k + 1);
    LevelIsWhatFits(l, hashes, front, ip, signIn, now, at, 0.0);
    LevelBounds(c, Lookup(HashesAfter(l, hashes, front), KeyOf(ip, signIn)), at);
    FitAt(c, front, rs[..k + 1], ip, signIn, at, 0.0, i);
    assert front[i..] == arrivals[i..k + 1] && rs[..k + 1][i..] == rs[i..k + 1];
    hide *;
  }

  lemma FitAt(c: Config, arrivals: seq<Arrival>, responses: seq<Response>, ip: string, signIn: bool, later: real, x: real, i: nat)
    requires |arrivals| == |responses| && i < |arrivals|
    ensures Fit(c, arrivals, responses, ip, signIn, later, x) ==>
              Within(c, Passed(arrivals[i..], responses[i..], ip, signIn), x, later - arrivals[i].at)
  {
    FitMeaning(c, arrivals, responses, ip, signIn, later, x);
    assert Fit(c, arrivals, responses, ip, signIn, later, x) ==> FitsFrom(c, arrivals, responses, i, ip, signIn, later, x);
    hide Within, Passed, Fit;
  }

  lemma {:induction false} PrefixResponses(l: Limits, hashes: map<Key, Hash>, arrivals: seq<Arrival>, j: nat)
    requires l.AllSane() && j <= |arrivals|
    ensures Responses(l, hashes, arrivals)[..j] == Responses(l, hashes, arrivals[..j])
    decreases |arrivals|
  {
    if j > 0 {
      PrefixResponses(l, Next(l, hashes, arrivals[0]).hashes, arrivals[1..], j - 1);
      assert arrivals[..j][1..] == arrivals[1..][..j - 1];
      hide Next;
    }
  }

  // ---------------------------------------------------------------------------------------------
  // Kinds of paths and addresses do not affect each other
  // ---------------------------------------------------------------------------------------------

  lemma {:induction false} OthersFrom(l: Limits, hs: map<Key, Hash>, hs': map<Key, Hash>, arrivals: seq<Arrival>, drop: seq<bool>,
                                      ip: string, signIn: bool)
    requires l.AllSane() && |drop| == |arrivals|
    requires forall i :: 0 <= i < |drop| ==> drop[i] == !From(arrivals[i], ip, signIn)
    requires Lookup(hs, KeyOf(ip, signIn)) == Lookup(hs', KeyOf(ip, signIn))
    ensures Responses(l, hs', Without(arrivals, drop)) == Without(Responses(l, hs, arrivals), drop)
    decreases |arrivals|
  {
    if arrivals != [] {
      var a, rest := arrivals[0], arrivals[1..];
      var h := Next(l, hs, a).hashes;
      KeyMeaning(a, ip, signIn);
      assert Responses(l, hs, arrivals)[1..] == Responses(l, h, rest);
      hide From, KeyFor;
      if drop[0] {
        OthersFrom(l, h, hs', rest, drop[1..], ip, signIn);
        assert Without(arrivals, drop) == Without(rest, drop[1..]);
      } else {
        OthersFrom(l, h, Next(l, hs', a).hashes, rest, drop[1..], ip, signIn);
        assert ([a] + Without(rest, drop[1..]))[1..] == Without(rest, drop[1..]);
      }
    }
  }

  /** The answers to an address on one kind of path are those it would have got had there been no other
      requests: none of other addresses, none on the other kind of path, no health checks. */
  lemma OthersDoNotMatter(l: Limits, hashes: map<Key, Hash>, arrivals: seq<Arrival>, drop: seq<bool>, ip: string, signIn: bool)
    requires l.AllSane() && |drop| == |arrivals|
    requires forall i :: 0 <= i < |drop| ==> drop[i] == !From(arrivals[i], ip, signIn)
    ensures Responses(l, hashes, Without(arrivals, drop)) == Without(Responses(l, hashes, arrivals), drop)
  {
    OthersFrom(l, hashes, hashes, arrivals, drop, ip, signIn);
  }
}
