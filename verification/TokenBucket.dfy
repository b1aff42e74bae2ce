/**
 Outgoing rate limiting with one token bucket per platform (core/outgoing_ratelimit.go). Time is a parameter of
 type real and arithmetic is exact.
 */
module TokenBucket {

  datatype Config = Config(maxPerSecond: real, burst: int)

  function Ceil(x: real): int {
    -((-x).Floor)
  }

  predicate Disabled(c: Config) {
    c.maxPerSecond <= 0.0
  }

  function EffectiveBurst(c: Config): (r: int)
    ensures !Disabled(c) ==> r >= 1
  {
    if c.burst > 0 then c.burst else Ceil(c.maxPerSecond)
  }

  /** The default burst is the smallest whole number that holds one second's worth of messages. */
  lemma DefaultBurst(c: Config)
    requires c.burst <= 0
    ensures EffectiveBurst(c) as real >= c.maxPerSecond > (EffectiveBurst(c) - 1) as real
  {
  }

  function CfgOf(defaults: Config, overrides: map<string, Config>, platform: string): Config {
    if platform in overrides then overrides[platform] else defaults
  }

  // ----- One bucket as a value -----

  datatype Bucket = Bucket(tokens: real, maxTokens: real, rate: real, last: real)

  predicate Sound(b: Bucket) {
    b.rate > 0.0 && b.maxTokens >= 1.0 && 0.0 <= b.tokens <= b.maxTokens
  }

  function Full(c: Config, now: real): (b: Bucket)
    ensures !Disabled(c) ==> Sound(b)
  {
    Bucket(EffectiveBurst(c) as real, EffectiveBurst(c) as real, c.maxPerSecond, now)
  }

  function Min(a: real, b: real): real {
    if a <= b then a else b
  }

  /** The tokens that come in during `elapsed` seconds. */
  function Gain(elapsed: real, rate: real): real {
    elapsed * rate
  }

  function Refilled(b: Bucket, now: real): Bucket {
    if now - b.last <= 0.0 then b
    else b.(tokens := Min(b.tokens + Gain(now - b.last, b.rate), b.maxTokens), last := now)
  }

  lemma GainIsPositive(elapsed: real, rate: real)
    requires elapsed > 0.0 && rate > 0.0
    ensures Gain(elapsed, rate) > 0.0
  {
  }

  lemma GainAdds(a: real, b: real, c: real, rate: real)
    ensures Gain(c - a, rate) == Gain(b - a, rate) + Gain(c - b, rate)
  {
  }

  lemma RefillIsSound(b: Bucket, now: real)
    requires Sound(b)
    ensures Sound(Refilled(b, now)) && b.tokens <= Refilled(b, now).tokens
  {
    hide Gain;
    if now > b.last { GainIsPositive(now - b.last, b.rate); }
  }

  /** Refilling at an instant in between makes no difference. */
  lemma RefillSplits(b: Bucket, between: real, now: real)
    requires Sound(b) && between <= now
    ensures Refilled(Refilled(b, between), now) == Refilled(b, now)
  {
    if between > b.last {
      hide Gain;
      GainAdds(b.last, between, now, b.rate);
      GainIsPositive(between - b.last, b.rate);
      if now > between { GainIsPositive(now - between, b.rate); }
    }
  }

  // ----- One attempt to send, as a step of the whole limiter -----

  type Buckets = map<string, Bucket>

  function BucketFor(m: Buckets, platform: string, c: Config, now: real): Bucket {
    if platform in m then m[platform] else Full(c, now)
  }

  predicate Grants(m: Buckets, platform: string, c: Config, now: real) {
    Refilled(BucketFor(m, platform, c, now), now).tokens >= 1.0
  }

  /** A platform without a limit is never held up. */
  predicate Passes(m: Buckets, platform: string, c: Config, now: real) {
    Disabled(c) || Grants(m, platform, c, now)
  }

  function Taken(b: Bucket, now: real): Bucket {
    var r := Refilled(b, now);
    if r.tokens >= 1.0 then r.(tokens := r.tokens - 1.0) else r
  }

  lemma TakenIsSound(b: Bucket, now: real)
    requires Sound(b)
    ensures Sound(Taken(b, now))
  {
    RefillIsSound(b, now);
  }

  function After(m: Buckets, platform: string, c: Config, now: real): Buckets {
    m[platform := Taken(BucketFor(m, platform, c, now), now)]
  }

  datatype Try = Try(platform: string, at: real)

  /** A try for a platform without a limit does not touch the buckets. */
  function RunOne(m: Buckets, t: Try, defaults: Config, overrides: map<string, Config>): Buckets {
    if Disabled(CfgOf(defaults, overrides, t.platform)) then m
    else After(m, t.platform, CfgOf(defaults, overrides, t.platform), t.at)
  }

  class TokenBucket {
    var tokens: real
    var maxTokens: real
    var refillRate: real
    var lastRefill: real

    ghost function Value(): Bucket
      reads this
    {
      Bucket(tokens, maxTokens, refillRate, lastRefill)
    }

    constructor (burst: int, rate: real, now: real)
      ensures Value() == Bucket(burst as real, burst as real, rate, now)
    {
      tokens, maxTokens, refillRate, lastRefill := burst as real, burst as real, rate, now;
    }

    method Refill(now: real)
      modifies this
      ensures Value() == Refilled(old(Value()), now)
    {
      var elapsed := now - lastRefill;
      if elapsed <= 0.0 {
        return;
      }
      tokens := tokens + elapsed * refillRate;
      if tokens > maxTokens {
        tokens := maxTokens;
      }
      lastRefill := now;
    }

    /** The part of Wait that works on the bucket. */
    method TakeOrWait(now: real) returns (granted: bool, waitSecs: real)
      requires Sound(Value())
      modifies this
      ensures Value() == Taken(old(Value()), now)
      ensures granted <==> Refilled(old(Value()), now).tokens >= 1.0
      ensures !granted ==> waitSecs == (1.0 - tokens) / refillRate
    {
      RefillIsSound(Value(), now);
      Refill(now);
      if tokens >= 1.0 {
        tokens := tokens - 1.0;
        return true, 0.0;
      }
      var deficit := 1.0 - tokens;
      waitSecs := deficit / refillRate;
      granted := false;
    }
  }

  class OutgoingRateLimiter {
    const defaults: Config
    const overrides: map<string, Config>
    var buckets: map<string, TokenBucket>

    ghost predicate Valid()
      reads this, buckets.Values
    {
      && (forall p, q :: p in buckets && q in buckets && p != q ==> buckets[p] != buckets[q])
      && (forall p :: p in buckets ==> Sound(buckets[p].Value()))
    }

    ghost function View(): Buckets
      reads this, buckets.Values
    {
      map p | p in buckets :: buckets[p].Value()
    }

    constructor (defaults: Config, overrides: map<string, Config>)
      ensures this.defaults == defaults && this.overrides == overrides
      ensures Valid() && View() == map[]
    {
      this.defaults, this.overrides, buckets := defaults, overrides, map[];
    }

    function CfgFor(platform: string): Config {
      CfgOf(defaults, overrides, platform)
    }

    method BucketOf(platform: string, now: real) returns (b: TokenBucket)
      requires Valid() && !Disabled(CfgFor(platform))
      modifies this
      ensures Valid() && platform in buckets && b == buckets[platform]
      ensures b.Value() == BucketFor(old(View()), platform, CfgFor(platform), now)
      ensures fresh(buckets.Values - old(buckets.Values))
      ensures View() == old(View())[platform := b.Value()]
      ensures forall p :: p in buckets && p != platform ==> p in old(buckets) && buckets[p] == old(buckets[p])
    {
      if platform in buckets {
        return buckets[platform];
      }
      var cfg := CfgFor(platform);
      b := new TokenBucket(EffectiveBurst(cfg), cfg.maxPerSecond, now);
      buckets := buckets[platform := b];
    }

    /** The locked part of Wait. */
    method AttemptLimited(platform: string, now: real) returns (granted: bool, waitSecs: real)
      requires Valid() && !Disabled(CfgFor(platform))
      modifies this, buckets.Values
      ensures Valid() && fresh(buckets.Values - old(buckets.Values))
      ensures View() == After(old(View()), platform, CfgFor(platform), now)
      ensures granted <==> Grants(old(View()), platform, CfgFor(platform), now)
      ensures !granted ==> platform in View() && waitSecs == (1.0 - View()[platform].tokens) / View()[platform].rate
    {
      hide Refilled, BucketFor, Taken, Full, EffectiveBurst, CfgOf, Disabled;
      var b := BucketOf(platform, now);
      RefillIsSound(b.Value(), now);
      TakenIsSound(b.Value(), now);
      granted, waitSecs := b.TakeOrWait(now);
    }

    /** One round of the loop in Wait: a token is taken, or the time until one is there is returned. */
    method Attempt(platform: string, now: real) returns (granted: bool, waitSecs: real)
      requires Valid()
      modifies this, buckets.Values
      ensures Valid() && fresh(buckets.Values - old(buckets.Values))
      ensures View() == RunOne(old(View()), Try(platform, now), defaults, overrides)
      ensures granted <==> Passes(old(View()), platform, CfgFor(platform), now)
      ensures !granted ==> platform in View() && waitSecs == (1.0 - View()[platform].tokens) / View()[platform].rate
    {
      hide Grants, After, CfgOf;
      var cfg := CfgFor(platform);
      if cfg.maxPerSecond <= 0.0 {
        return true, 0.0;
      }
      granted, waitSecs := AttemptLimited(platform, now);
    }
  }

  // ----- One platform -----

  /** An attempt for one platform leaves the buckets of all others alone. */
  lemma OthersStay(m: Buckets, platform: string, c: Config, now: real, other: string)
    ensures other != platform ==>
              (other in After(m, platform, c, now) <==> other in m) &&
              (other in m ==> After(m, platform, c, now)[other] == m[other])
  {
  }

  /** After a refusal, the waiting time is exactly what is missing: an attempt is granted from then on, not before. */
  lemma WaitingSuffices(m: Buckets, platform: string, c: Config, now: real, later: real)
    requires !Disabled(c) && (platform in m ==> Sound(m[platform]) && m[platform].last <= now)
    requires !Grants(m, platform, c, now) && now <= later
    ensures var after := After(m, platform, c, now);
            platform in after && Sound(after[platform]) &&
            (Grants(after, platform, c, later) <==> later - now >= (1.0 - after[platform].tokens) / after[platform].rate)
  {
    var b := BucketFor(m, platform, c, now);
    RefillIsSound(b, now);
    var r := Refilled(b, now);
    assert After(m, platform, c, now)[platform] == r;
    hide Gain;
    if later > now { WaitArithmetic(r, later - now); }
  }

  lemma WaitArithmetic(r: Bucket, waited: real)
    requires Sound(r) && waited > 0.0
    ensures r.tokens + Gain(waited, r.rate) >= 1.0 <==> waited >= (1.0 - r.tokens) / r.rate
  {
    var w := (1.0 - r.tokens) / r.rate;
    assert w * r.rate == 1.0 - r.tokens;
    if waited >= w { assert waited * r.rate >= w * r.rate; } else { assert waited * r.rate < w * r.rate; }
  }

  // ----- Whole runs -----

  /** The limiter after all tries in order. */
  function Run(m: Buckets, tries: seq<Try>, defaults: Config, overrides: map<string, Config>): Buckets {
    if tries == [] then m
    else RunOne(Run(m, tries[..|tries| - 1], defaults, overrides), tries[|tries| - 1], defaults, overrides)
  }

  /** How many of the tries for `platform` are granted. */
  function Granted(m: Buckets, tries: seq<Try>, defaults: Config, overrides: map<string, Config>, platform: string): nat {
    if tries == [] then 0
    else
      var t := tries[|tries| - 1];
      var before := Run(m, tries[..|tries| - 1], defaults, overrides);
      Granted(m, tries[..|tries| - 1], defaults, overrides, platform) +
      if t.platform == platform && Passes(before, platform, CfgOf(defaults, overrides, platform), t.at) then 1 else 0
  }

  /** The tries for one platform. */
  function Only(tries: seq<Try>, platform: string): seq<Try> {
    if tries == [] then []
    else Only(tries[..|tries| - 1], platform) + if tries[|tries| - 1].platform == platform then [tries[|tries| - 1]] else []
  }

  /** Platforms are isolated: one is granted exactly what it would be granted if no other platform sent anything. */
  lemma {:induction false} PlatformsAreIsolated(m: Buckets, tries: seq<Try>, defaults: Config, overrides: map<string, Config>,
                                                platform: string)
    ensures Granted(m, tries, defaults, overrides, platform) == Granted(m, Only(tries, platform), defaults, overrides, platform)
    ensures var mixed, alone := Run(m, tries, defaults, overrides), Run(m, Only(tries, platform), defaults, overrides);
            (platform in mixed <==> platform in alone) && (platform in mixed ==> mixed[platform] == alone[platform])
  {
    hide Run, Granted, Only;
    if tries == [] {
      NoTries(m, defaults, overrides, platform);
    } else {
      var init, t := tries[..|tries| - 1], tries[|tries| - 1];
      PlatformsAreIsolated(m, init, defaults, overrides, platform);
      RunSnoc(m, init, t, defaults, overrides, platform);
      RunSnoc(m, Only(init, platform), t, defaults, overrides, platform);
      assert init + [t] == tries;
      SameAttempt(Run(m, init, defaults, overrides), Run(m, Only(init, platform), defaults, overrides), t, platform,
                  defaults, overrides);
    }
  }

  lemma NoTries(m: Buckets, defaults: Config, overrides: map<string, Config>, platform: string)
    ensures Only([], platform) == [] && Run(m, [], defaults, overrides) == m
    ensures Granted(m, [], defaults, overrides, platform) == 0
  {
  }

  lemma RunSnoc(m: Buckets, init: seq<Try>, t: Try, defaults: Config, overrides: map<string, Config>, platform: string)
    ensures Only(init + [t], platform) == if t.platform == platform then Only(init, platform) + [t] else Only(init, platform)
    ensures Run(m, init + [t], defaults, overrides) == RunOne(Run(m, init, defaults, overrides), t, defaults, overrides)
    ensures Granted(m, init + [t], defaults, overrides, platform) == Granted(m, init, defaults, overrides, platform) +
            if t.platform == platform && Passes(Run(m, init, defaults, overrides), platform, CfgOf(defaults, overrides, platform), t.at)
            then 1 else 0
  {
    hide Passes, After, Disabled, CfgOf;
    assert (init + [t])[..|init|] == init;
    assert Only(init, platform) + [] == Only(init, platform);
  }

  /** An attempt finds and leaves the same bucket whatever the other platforms' buckets are. */
  lemma SameAttempt(mixed: Buckets, alone: Buckets, t: Try, platform: string, defaults: Config, overrides: map<string, Config>)
    requires platform in mixed <==> platform in alone
    requires platform in mixed ==> mixed[platform] == alone[platform]
    ensures t.platform == platform ==>
              forall c :: Passes(mixed, platform, c, t.at) <==> Passes(alone, platform, c, t.at)
    ensures var r, r' := RunOne(mixed, t, defaults, overrides),
                         if t.platform == platform then RunOne(alone, t, defaults, overrides) else alone;
            (platform in r <==> platform in r') && (platform in r ==> r[platform] == r'[platform])
  {
    hide Refilled, Disabled, CfgOf, Taken, Full;
    OthersStay(mixed, t.platform, CfgOf(defaults, overrides, t.platform), t.at, platform);
  }

  /** Tries in the order of the clock, from `from` to `to`. */
  predicate InOrder(tries: seq<Try>, from: real, to: real) {
    from <= to &&
    (tries == [] || (tries[|tries| - 1].at <= to && InOrder(tries[..|tries| - 1], from, tries[|tries| - 1].at)))
  }

  predicate SoundBy(m: Buckets, now: real, defaults: Config, overrides: map<string, Config>) {
    forall p :: p in m ==>
      && Sound(m[p]) && m[p].last <= now
      && m[p].rate == CfgOf(defaults, overrides, p).maxPerSecond
      && m[p].maxTokens == EffectiveBurst(CfgOf(defaults, overrides, p)) as real
  }

  /** The tokens of a platform at a time, whether or not its bucket was made yet. */
  function Level(m: Buckets, platform: string, c: Config, now: real): real {
    Refilled(BucketFor(m, platform, c, now), now).tokens
  }

  lemma {:induction false} RunIsSound(m: Buckets, tries: seq<Try>, defaults: Config, overrides: map<string, Config>,
                                      from: real, to: real)
    requires SoundBy(m, from, defaults, overrides) && InOrder(tries, from, to)
    ensures SoundBy(Run(m, tries, defaults, overrides), to, defaults, overrides)
  {
    hide Refilled, EffectiveBurst, Full;
    if tries != [] {
      var init, t := tries[..|tries| - 1], tries[|tries| - 1];
      RunIsSound(m, init, defaults, overrides, from, t.at);
      StepIsSound(Run(m, init, defaults, overrides), t, defaults, overrides);
    }
  }

  lemma StepIsSound(m: Buckets, t: Try, defaults: Config, overrides: map<string, Config>)
    requires SoundBy(m, t.at, defaults, overrides)
    ensures var c := CfgOf(defaults, overrides, t.platform);
            !Disabled(c) ==> SoundBy(After(m, t.platform, c, t.at), t.at, defaults, overrides)
  {
    var c := CfgOf(defaults, overrides, t.platform);
    if !Disabled(c) { RefillIsSound(BucketFor(m, t.platform, c, t.at), t.at); }
  }

  lemma NoGain(rate: real)
    ensures Gain(0.0, rate) == 0.0
  {
  }

  /** Between two instants the level of an untouched platform rises by at most rate times the time between. */
  lemma LevelRises(m: Buckets, platform: string, c: Config, early: real, late: real)
    requires !Disabled(c) && early <= late
    requires platform in m ==> Sound(m[platform]) && m[platform].last <= early && m[platform].rate == c.maxPerSecond
    ensures Level(m, platform, c, late) <= Level(m, platform, c, early) + Gain(late - early, c.maxPerSecond)
  {
    NoGain(c.maxPerSecond);
    hide Gain, EffectiveBurst;
    if late > early { GainIsPositive(late - early, c.maxPerSecond); }
    if platform in m { GainAdds(m[platform].last, early, late, c.maxPerSecond); }
  }

  /** An attempt for the platform costs one token exactly when it is granted. */
  lemma LevelAfter(m: Buckets, platform: string, c: Config, now: real)
    requires platform in m ==> m[platform].last <= now
    ensures Level(After(m, platform, c, now), platform, c, now) ==
            Level(m, platform, c, now) - if Grants(m, platform, c, now) then 1.0 else 0.0
  {
  }

  lemma RunLevelRises(m: Buckets, defaults: Config, overrides: map<string, Config>, platform: string, early: real, late: real)
    requires SoundBy(m, early, defaults, overrides) && early <= late && !Disabled(CfgOf(defaults, overrides, platform))
    ensures var c := CfgOf(defaults, overrides, platform);
            Level(m, platform, c, late) <= Level(m, platform, c, early) + Gain(late - early, c.maxPerSecond)
  {
    LevelRises(m, platform, CfgOf(defaults, overrides, platform), early, late);
  }

  /** Tokens held at the end and tokens spent come from the tokens at the start and the refill. */
  lemma {:induction false} TokensAccount(m: Buckets, tries: seq<Try>, defaults: Config, overrides: map<string, Config>,
                                         platform: string, from: real, to: real)
    requires SoundBy(m, from, defaults, overrides) && InOrder(tries, from, to)
    requires !Disabled(CfgOf(defaults, overrides, platform))
    ensures var c := CfgOf(defaults, overrides, platform);
            Level(Run(m, tries, defaults, overrides), platform, c, to) +
            Granted(m, tries, defaults, overrides, platform) as real
            <= Level(m, platform, c, from) + Gain(to - from, c.maxPerSecond)
  {
    hide Level, Grants, After, EffectiveBurst, SoundBy, Gain, CfgOf;
    var c := CfgOf(defaults, overrides, platform);
    if tries == [] {
      RunLevelRises(m, defaults, overrides, platform, from, to);
    } else {
      var init, t := tries[..|tries| - 1], tries[|tries| - 1];
      var before, after := Run(m, init, defaults, overrides), Run(m, tries, defaults, overrides);
      TokensAccount(m, init, defaults, overrides, platform, from, t.at);
      RunIsSound(m, init, defaults, overrides, from, t.at);
      RunIsSound(m, tries, defaults, overrides, from, t.at);
      RunLevelRises(after, defaults, overrides, platform, t.at, to);
      TriedLevel(before, t, defaults, overrides, platform);
      GainAdds(from, t.at, to, c.maxPerSecond);
    }
  }

  lemma TriedLevel(m: Buckets, t: Try, defaults: Config, overrides: map<string, Config>, platform: string)
    requires SoundBy(m, t.at, defaults, overrides)
    ensures var c, d := CfgOf(defaults, overrides, platform), CfgOf(defaults, overrides, t.platform);
            !Disabled(c) && !Disabled(d) ==>
              Level(After(m, t.platform, d, t.at), platform, c, t.at) == Level(m, platform, c, t.at) -
              if t.platform == platform && Grants(m, platform, c, t.at) then 1.0 else 0.0
  {
    hide Refilled;
    if t.platform == platform {
      LevelAfter(m, platform, CfgOf(defaults, overrides, platform), t.at);
    } else {
      OthersStay(m, t.platform, CfgOf(defaults, overrides, t.platform), t.at, platform);
    }
  }

  lemma LevelBounds(m: Buckets, platform: string, defaults: Config, overrides: map<string, Config>, now: real)
    requires SoundBy(m, now, defaults, overrides) && !Disabled(CfgOf(defaults, overrides, platform))
    ensures var c := CfgOf(defaults, overrides, platform);
            0.0 <= Level(m, platform, c, now) <= EffectiveBurst(c) as real
  {
    hide EffectiveBurst, Refilled, CfgOf, Disabled;
    RefillIsSound(BucketFor(m, platform, CfgOf(defaults, overrides, platform), now), now);
    RefillKeepsSize(BucketFor(m, platform, CfgOf(defaults, overrides, platform), now), now);
  }

  lemma RefillKeepsSize(b: Bucket, now: real)
    ensures Refilled(b, now).maxTokens == b.maxTokens
  {
  }

  /** In any interval a platform gets at most its burst plus its rate times the length of the interval. */
  lemma SendsAreBounded(m: Buckets, tries: seq<Try>, defaults: Config, overrides: map<string, Config>,
                        platform: string, from: real, to: real)
    requires SoundBy(m, from, defaults, overrides) && InOrder(tries, from, to)
    requires !Disabled(CfgOf(defaults, overrides, platform))
    ensures var c := CfgOf(defaults, overrides, platform);
            Granted(m, tries, defaults, overrides, platform) as real
            <= EffectiveBurst(c) as real + Gain(to - from, c.maxPerSecond)
  {
    hide EffectiveBurst, Level, SoundBy, Granted, Run, Gain, Disabled, CfgOf;
    TokensAccount(m, tries, defaults, overrides, platform, from, to);
    RunIsSound(m, tries, defaults, overrides, from, to);
    LevelBounds(m, platform, defaults, overrides, from);
    LevelBounds(Run(m, tries, defaults, overrides), platform, defaults, overrides, to);
  }

  // ----- Which limit a platform has -----

  /** Any number of tries for one platform at one instant. */
  function Volley(platform: string, now: real, n: nat): seq<Try> {
    if n == 0 then [] else Volley(platform, now, n - 1) + [Try(platform, now)]
  }

  /** The configured burst, or else the rate rounded up. */
  predicate BurstOf(c: Config, burst: nat) {
    c.maxPerSecond > 0.0 ==> if c.burst > 0 then burst == c.burst else burst as real >= c.maxPerSecond > (burst - 1) as real
  }

  /** What a fresh limiter has after `n` tries at one instant. */
  function AfterVolley(platform: string, c: Config, burst: nat, now: real, n: nat): Buckets {
    if n == 0 then map[]
    else map[platform := Bucket(if n <= burst then (burst - n) as real else 0.0, burst as real, c.maxPerSecond, now)]
  }

  lemma OneTry(m: Buckets, t: Try, defaults: Config, overrides: map<string, Config>, c: Config, burst: nat, n: nat)
    requires c == if t.platform in overrides then overrides[t.platform] else defaults
    requires BurstOf(c, burst)
    requires c.maxPerSecond > 0.0 ==> m == AfterVolley(t.platform, c, burst, t.at, n)
    ensures CfgOf(defaults, overrides, t.platform) == c
    ensures Passes(m, t.platform, c, t.at) <==> c.maxPerSecond <= 0.0 || n < burst
    ensures c.maxPerSecond > 0.0 ==> RunOne(m, t, defaults, overrides) == AfterVolley(t.platform, c, burst, t.at, n + 1)
  {
    hide Gain;
    if c.maxPerSecond > 0.0 {
      if c.burst <= 0 { DefaultBurst(c); }
      assert EffectiveBurst(c) == burst;
    }
  }

  lemma {:induction false} VolleyLeaves(defaults: Config, overrides: map<string, Config>, platform: string, c: Config,
                                        burst: nat, now: real, n: nat)
    requires c == if platform in overrides then overrides[platform] else defaults
    requires BurstOf(c, burst) && c.maxPerSecond > 0.0
    ensures Run(map[], Volley(platform, now, n), defaults, overrides) == AfterVolley(platform, c, burst, now, n)
  {
    hide Granted, Run, RunOne, Passes, CfgOf;
    if n == 0 {
      NoTries(map[], defaults, overrides, platform);
    } else {
      hide AfterVolley;
      var init, t := Volley(platform, now, n - 1), Try(platform, now);
      VolleyLeaves(defaults, overrides, platform, c, burst, now, n - 1);
      RunSnoc(map[], init, t, defaults, overrides, platform);
      OneTry(Run(map[], init, defaults, overrides), t, defaults, overrides, c, burst, n - 1);
    }
  }

  /**
   A platform with an override has its limit from there, any other from the defaults: of `n` tries at one instant a
   fresh limiter grants all without a limit, otherwise the configured burst or else the rate rounded up.
   */
  lemma {:induction false} BurstIsGranted(defaults: Config, overrides: map<string, Config>, platform: string, c: Config,
                                          burst: nat, now: real, n: nat)
    requires c == if platform in overrides then overrides[platform] else defaults
    requires BurstOf(c, burst)
    ensures Granted(map[], Volley(platform, now, n), defaults, overrides, platform) ==
            if c.maxPerSecond <= 0.0 || n <= burst then n else burst
  {
    hide Granted, Run, RunOne, Passes, CfgOf, AfterVolley, BurstOf;
    if n == 0 {
      NoTries(map[], defaults, overrides, platform);
    } else {
      var init, t := Volley(platform, now, n - 1), Try(platform, now);
      BurstIsGranted(defaults, overrides, platform, c, burst, now, n - 1);
      RunSnoc(map[], init, t, defaults, overrides, platform);
      if c.maxPerSecond > 0.0 { VolleyLeaves(defaults, overrides, platform, c, burst, now, n - 1); }
      OneTry(Run(map[], init, defaults, overrides), t, defaults, overrides, c, burst, n - 1);
    }
  }
}
