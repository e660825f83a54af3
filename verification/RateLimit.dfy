/** The token bucket behind the API: one bucket per key, refilled by elapsed time. */
module RateLimit {
  import opened Domain

  type Client = int

  datatype Limits = Limits(capacity: int, rate: real)

  datatype Bucket = Bucket(tokens: real, last: real)

  /** `Raises` is the division by a zero refill rate when a request is refused. */
  datatype Answer = Admitted | Refused(retryAfter: real) | Raises

  function Refilled(lim: Limits, b: Bucket, now: real): real {
    var elapsed := if now > b.last then now - b.last else 0.0;
    var tokens := b.tokens + elapsed * lim.rate;
    if tokens < lim.capacity as real then tokens else lim.capacity as real
  }

  function Charged(lim: Limits, b: Option<Bucket>, now: real): Bucket {
    match b
    case None => Bucket(lim.capacity as real - 1.0, now)
    case Some(b) =>
      var t := Refilled(lim, b, now);
      Bucket(if t >= 1.0 then t - 1.0 else t, now)
  }

  predicate Admits(lim: Limits, b: Option<Bucket>, now: real) {
    b.None? || Refilled(lim, b.value, now) >= 1.0
  }

  class RateLimiter {
    const limits: Limits
    var buckets: map<Client, Bucket>

    constructor (limits: Limits)
      ensures this.limits == limits && buckets == map[]
    {
      this.limits := limits;
      buckets := map[];
    }

    function BucketOf(key: Client): Option<Bucket>
      reads this
    {
      if key in buckets then Some(buckets[key]) else None
    }

    method Allow(key: Client, now: real) returns (r: Answer)
      modifies this
      ensures buckets == old(buckets)[key := Charged(limits, old(BucketOf(key)), now)]
      ensures r.Admitted? <==> Admits(limits, old(BucketOf(key)), now)
      ensures r.Refused? ==> Refilled(limits, old(BucketOf(key)).value, now) + r.retryAfter * limits.rate == 1.0
      ensures r.Raises? ==> limits.rate == 0.0
    {
      if key !in buckets {
        buckets := buckets[key := Bucket(limits.capacity as real - 1.0, now)];
        return Admitted;
      }
      var bucket := buckets[key];
      var elapsed := if now > bucket.last then now - bucket.last else 0.0;
      var tokens := bucket.tokens + elapsed * limits.rate;
      tokens := if tokens < limits.capacity as real then tokens else limits.capacity as real;
      assert tokens == Refilled(limits, bucket, now);
      if tokens >= 1.0 {
        buckets := buckets[key := Bucket(tokens - 1.0, now)];
        return Admitted;
      }
      buckets := buckets[key := Bucket(tokens, now)];
      if limits.rate == 0.0 {
        return Raises;
      }
      var wait := (1.0 - tokens) / limits.rate;
      assert wait * limits.rate == 1.0 - tokens;
      return Refused(wait);
    }
  }

  /** Waiting exactly as long as told is enough, unless no request but the first could
      ever be admitted. */
  lemma RetryIsAdmitted(lim: Limits, b: Bucket, now: real, retryAfter: real)
    requires lim.rate > 0.0 && !Admits(lim, Some(b), now)
    requires Refilled(lim, b, now) + retryAfter * lim.rate == 1.0
    ensures Admits(lim, Some(Charged(lim, Some(b), now)), now + retryAfter) <==> lim.capacity >= 1
    ensures retryAfter > 0.0
  {
    PositiveFactor(retryAfter, lim.rate);
  }

  lemma PositiveFactor(x: real, rate: real)
    requires rate > 0.0 && x * rate > 0.0
    ensures x > 0.0
  {
  }

  lemma Scaled(rate: real, x: real, y: real)
    requires rate >= 0.0 && x <= y
    ensures rate * x <= rate * y
  {
  }

  // ----- any window of any run

  datatype Request = Request(key: Client, at: real)

  ghost predicate Monotone(rs: seq<Request>) {
    forall i, j :: 0 <= i < j < |rs| ==> rs[i].at <= rs[j].at
  }

  function Lookup(m: map<Client, Bucket>, key: Client): Option<Bucket> {
    if key in m then Some(m[key]) else None
  }

  function After(lim: Limits, rs: seq<Request>): map<Client, Bucket> {
    if rs == [] then map[]
    else
      var before, r := After(lim, rs[..|rs| - 1]), rs[|rs| - 1];
      before[r.key := Charged(lim, Lookup(before, r.key), r.at)]
  }

  /** How many requests of `key` from position `i` on were admitted. */
  function AdmittedFrom(lim: Limits, rs: seq<Request>, key: Client, i: nat): nat
    requires i <= |rs|
  {
    if |rs| == i then 0
    else
      var init, r := rs[..|rs| - 1], rs[|rs| - 1];
      AdmittedFrom(lim, init, key, i) + if r.key == key && Admits(lim, Lookup(After(lim, init), key), r.at) then 1 else 0
  }

  function Positive(x: real): real {
    if x > 0.0 then x else 0.0
  }

  /** The tokens that so much time refills. */
  function Earned(rate: real, time: real): real {
    rate * time
  }

  lemma EarnedFacts(rate: real, x: real, y: real)
    requires rate >= 0.0 && 0.0 <= x <= y
    ensures 0.0 <= Earned(rate, x) <= Earned(rate, y) && Earned(rate, 0.0) == 0.0
  {
    Scaled(rate, 0.0, x);
    Scaled(rate, x, y);
  }

  lemma EarnedSplit(rate: real, x: real, y: real)
    ensures Earned(rate, x) + Earned(rate, y) == Earned(rate, x + y)
  {
  }

  /** The account of `key` since `i`: tokens spent and tokens left never exceed a full
      bucket plus what the elapsed time refilled. */
  ghost predicate Balanced(lim: Limits, rs: seq<Request>, key: Client, i: nat, b: Option<Bucket>, spent: nat)
    requires i < |rs|
  {
    match b
    case None => spent == 0
    case Some(b) =>
      && 0.0 <= b.tokens <= lim.capacity as real
      && (b.last < rs[i].at ==> spent == 0)
      && spent as real + b.tokens <= lim.capacity as real + Earned(lim.rate, Positive(b.last - rs[i].at))
  }

  lemma ChargeBalances(lim: Limits, rs: seq<Request>, key: Client, i: nat, b: Option<Bucket>, spent: nat, now: real)
    requires i < |rs| && rs[i].at <= now && (b.Some? ==> b.value.last <= now)
    requires lim.capacity >= 1 && lim.rate >= 0.0
    requires Balanced(lim, rs, key, i, b, spent)
    ensures Balanced(lim, rs, key, i, Some(Charged(lim, b, now)), spent + if Admits(lim, b, now) then 1 else 0)
  {
    hide Earned, Refilled;
    var start := rs[i].at;
    EarnedFacts(lim.rate, 0.0, now - start);
    match b
    case None =>
    case Some(b) =>
      RefillBounds(lim, b, now);
      if b.last >= start {
        EarnedSplit(lim.rate, b.last - start, now - b.last);
      }
  }

  /** A refill adds at most what the elapsed time earns and never overfills. */
  lemma RefillBounds(lim: Limits, b: Bucket, now: real)
    requires lim.capacity >= 1 && lim.rate >= 0.0 && b.last <= now && 0.0 <= b.tokens <= lim.capacity as real
    ensures 0.0 <= Refilled(lim, b, now) <= lim.capacity as real
    ensures Refilled(lim, b, now) <= b.tokens + Earned(lim.rate, now - b.last)
  {
    Scaled(lim.rate, 0.0, now - b.last);
  }

  lemma {:induction false} RunBalances(lim: Limits, rs: seq<Request>, key: Client, i: nat)
    requires Monotone(rs) && i < |rs| && lim.capacity >= 1 && lim.rate >= 0.0
    ensures Balanced(lim, rs, key, i, Lookup(After(lim, rs), key), AdmittedFrom(lim, rs, key, i))
    ensures key in After(lim, rs) ==> After(lim, rs)[key].last <= rs[|rs| - 1].at
  {
    hide Earned, Refilled, Balanced;
    var init, r := rs[..|rs| - 1], rs[|rs| - 1];
    var b := Lookup(After(lim, init), key);
    if |rs| - 1 == i {
      BeforeWindow(lim, init, key);
      Opens(lim, rs, key, i, b);
    } else {
      RunBalances(lim, init, key, i);
      assert init[|init| - 1] == rs[|rs| - 2];
      BalancedOn(lim, init, rs, key, i, b, AdmittedFrom(lim, init, key, i));
    }
    if r.key == key {
      ChargeBalances(lim, rs, key, i, b, AdmittedFrom(lim, init, key, i), r.at);
    }
  }

  /** The smaller of a full bucket and what is left plus what the elapsed time earns. */
  lemma RefillIs(lim: Limits, b: Bucket, now: real)
    requires b.last <= now
    ensures var t := Refilled(lim, b, now);
      && t <= lim.capacity as real && t <= b.tokens + Earned(lim.rate, now - b.last)
      && (t == lim.capacity as real || t == b.tokens + Earned(lim.rate, now - b.last))
    ensures lim.rate >= 0.0 ==> Earned(lim.rate, now - b.last) >= 0.0
  {
    EarnedOver(lim.rate, b.last, now);
    if lim.rate >= 0.0 {
      EarnedFacts(lim.rate, 0.0, now - b.last);
    }
  }

  lemma EarnedOver(rate: real, last: real, now: real)
    requires last <= now
    ensures var elapsed := if now > last then now - last else 0.0; elapsed * rate == Earned(rate, now - last)
  {
  }

  /** A key whose last request lies far enough back for one token to be refilled is
      admitted, whatever that request came to. */
  lemma SpacedIsAdmitted(lim: Limits, b: Option<Bucket>, at: real, now: real)
    requires lim.capacity >= 1 && lim.rate >= 0.0 && at <= now && (b.Some? ==> 0.0 <= b.value.tokens && b.value.last <= at)
    requires lim.rate * (now - at) >= 1.0
    ensures Admits(lim, Some(Charged(lim, b, at)), now)
  {
    hide Refilled, Earned;
    if b.Some? {
      RefillIs(lim, b.value, at);
    }
    EarnedIs(lim.rate, now - at);
    var c := Charged(lim, b, at);
    assert c.last == at && c.tokens >= 0.0;
    RefillIs(lim, c, now);
  }

  /** How many requests of `key` there have been. */
  function Asked(rs: seq<Request>, key: Client): nat {
    if rs == [] then 0 else Asked(rs[..|rs| - 1], key) + if rs[|rs| - 1].key == key then 1 else 0
  }

  lemma {:induction false} Lasts(lim: Limits, rs: seq<Request>, key: Client)
    requires Monotone(rs) && lim.capacity >= 1 && lim.rate >= 0.0
    ensures key in After(lim, rs) <==> Asked(rs, key) > 0
    ensures key in After(lim, rs) ==>
              var b := After(lim, rs)[key];
              0.0 <= b.tokens && lim.capacity as real - Asked(rs, key) as real <= b.tokens && b.last <= rs[|rs| - 1].at
  {
    hide Refilled, Earned;
    if rs != [] {
      var init, r := rs[..|rs| - 1], rs[|rs| - 1];
      Lasts(lim, init, key);
      var b := Lookup(After(lim, init), key);
      BeforeWindow(lim, init, key);
      if r.key == key && b.Some? {
        RefillIs(lim, b.value, r.at);
      }
    }
  }

  /** The first `capacity` requests of a key are all admitted, however fast they come and
      whatever other keys do. */
  lemma BurstIsAdmitted(lim: Limits, rs: seq<Request>, r: Request)
    requires Monotone(rs + [r]) && lim.rate >= 0.0 && Asked(rs, r.key) < lim.capacity
    ensures Admits(lim, Lookup(After(lim, rs), r.key), r.at)
  {
    hide Refilled, Earned;
    forall i, j | 0 <= i < j < |rs| ensures rs[i].at <= rs[j].at {
      assert (rs + [r])[i] == rs[i] && (rs + [r])[j] == rs[j];
    }
    Lasts(lim, rs, r.key);
    BeforeWindow(lim, rs, r.key);
    if r.key in After(lim, rs) {
      assert (rs + [r])[|rs| - 1] == rs[|rs| - 1] && (rs + [r])[|rs|] == r;
      var b := After(lim, rs)[r.key];
      RefillIs(lim, b, r.at);
    }
  }

  lemma BalancedOn(lim: Limits, init: seq<Request>, rs: seq<Request>, key: Client, i: nat, b: Option<Bucket>, spent: nat)
    requires i < |init| < |rs| && rs[i] == init[i] && Balanced(lim, init, key, i, b, spent)
    ensures Balanced(lim, rs, key, i, b, spent)
  {
  }

  /** Nothing is spent when the window opens. */
  lemma Opens(lim: Limits, rs: seq<Request>, key: Client, i: nat, b: Option<Bucket>)
    requires i < |rs| && lim.rate >= 0.0
    requires b.Some? ==> 0.0 <= b.value.tokens <= lim.capacity as real && b.value.last <= rs[i].at
    ensures Balanced(lim, rs, key, i, b, 0)
  {
    hide Earned;
    EarnedFacts(lim.rate, 0.0, 0.0);
  }

  lemma {:induction false} BeforeWindow(lim: Limits, rs: seq<Request>, key: Client)
    requires Monotone(rs) && lim.capacity >= 1 && lim.rate >= 0.0
    ensures key in After(lim, rs) ==>
              var b := After(lim, rs)[key];
              0.0 <= b.tokens <= lim.capacity as real && rs != [] && b.last <= rs[|rs| - 1].at
  {
    if rs != [] {
      RunBalances(lim, rs, key, |rs| - 1);
    }
  }

  lemma {:induction false} TinyBucket(lim: Limits, rs: seq<Request>, key: Client, i: nat)
    requires i <= |rs| && lim.capacity < 1
    ensures key !in After(lim, rs) ==> AdmittedFrom(lim, rs, key, i) == 0
    ensures key in After(lim, rs) ==>
              AdmittedFrom(lim, rs, key, i) <= 1 && After(lim, rs)[key].tokens <= lim.capacity as real
    decreases |rs|
  {
    if rs != [] {
      TinyBucket(lim, rs[..|rs| - 1], key, if i < |rs| then i else |rs| - 1);
    }
  }

  lemma SpentBound(lim: Limits, rs: seq<Request>, key: Client, i: nat, b: Option<Bucket>, spent: nat, refill: real)
    requires i < |rs| && lim.capacity >= 1 && Balanced(lim, rs, key, i, b, spent)
    requires b.Some? ==> Earned(lim.rate, Positive(b.value.last - rs[i].at)) <= refill
    requires refill >= 0.0
    ensures spent as real <= lim.capacity as real + refill
  {
    hide Earned;
  }

  /** In any window of any run, whatever other keys do, a key is admitted at most
      `capacity + rate * d` times, where `d` is the length of the window; a capacity
      below one still lets the very first request through. */
  lemma WindowBound(lim: Limits, rs: seq<Request>, key: Client, i: nat)
    requires Monotone(rs) && i < |rs| && lim.rate >= 0.0
    ensures AdmittedFrom(lim, rs, key, i) as real <=
              (if lim.capacity >= 1 then lim.capacity else 1) as real + lim.rate * (rs[|rs| - 1].at - rs[i].at)
  {
    hide After, AdmittedFrom, Earned;
    WindowEarned(lim, rs, key, i, rs[|rs| - 1].at - rs[i].at);
    EarnedIs(lim.rate, rs[|rs| - 1].at - rs[i].at);
  }

  lemma EarnedIs(rate: real, time: real)
    ensures Earned(rate, time) == rate * time
  {
  }

  lemma WindowEarned(lim: Limits, rs: seq<Request>, key: Client, i: nat, d: real)
    requires Monotone(rs) && i < |rs| && lim.rate >= 0.0 && d == rs[|rs| - 1].at - rs[i].at
    ensures AdmittedFrom(lim, rs, key, i) as real <= (if lim.capacity >= 1 then lim.capacity else 1) as real + Earned(lim.rate, d)
  {
    hide After, AdmittedFrom, Balanced, Earned;
    EarnedFacts(lim.rate, 0.0, d);
    if lim.capacity >= 1 {
      var b := Lookup(After(lim, rs), key);
      RunBalances(lim, rs, key, i);
      if b.Some? {
        EarnedFacts(lim.rate, Positive(b.value.last - rs[i].at), d);
      }
      SpentBound(lim, rs, key, i, b, AdmittedFrom(lim, rs, key, i), Earned(lim.rate, d));
    } else {
      TinyBucket(lim, rs, key, i);
    }
  }
}
