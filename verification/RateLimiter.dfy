/** `RateLimiter`: the per-endpoint dictionaries, refilled and spent in place. */
module RateLimiters {
  import opened Options
  import opened TokenBucket

  /** `time.monotonic`: readings never run backwards. */
  class Clock {
    var time: real

    constructor (start: real)
      ensures time == start
    {
      time := start;
    }

    method Read() returns (now: real)
      modifies this
      ensures old(time) <= now == time
    {
      var ahead: real := *;
      time := if ahead > 0.0 then time + ahead else time;
      now := time;
    }

    /** A sleep lasts at least as long as it was asked to. */
    method Sleep(seconds: real)
      modifies this
      ensures time >= old(time) && time >= old(time) + seconds
    {
      time := if seconds > 0.0 then time + seconds else time;
      var _ := Read();
    }
  }

  /** `DividedByZero` is the exception of dividing a deficit by a refill rate of zero. */
  datatype Acquired = NothingAsked | ExceedsCapacity | DividedByZero | Acquired(waited: real, sleeps: nat)

  /** The limiter as a value: its dictionaries, and per endpoint the visits since its bucket was last
      filled by fiat together with the last update at that moment. */
  datatype Limiter = Limiter(
    default: Config, configs: map<string, Config>, tokens: map<string, real>, lastUpdate: map<string, real>,
    trace: map<string, seq<Visit>>, origin: map<string, real>)
  {
    function ConfigOf(e: string): Config { if e in configs then configs[e] else default }

    function BucketOf(e: string): Bucket {
      Bucket(if e in tokens then tokens[e] else default.maxTokens,
             if e in lastUpdate then Some(lastUpdate[e]) else None)
    }

    function TraceOf(e: string): seq<Visit> { if e in trace then trace[e] else [] }

    function OriginOf(e: string): Option<real> { if e in origin then Some(origin[e]) else None }

    ghost predicate Sound(e: string, now: real) {
      Accounted(BucketOf(e), OriginOf(e), ConfigOf(e), TraceOf(e), now)
    }

    /** Every bucket is the outcome of a timely run on it. */
    ghost predicate Valid(now: real) { configs.Keys <= tokens.Keys && forall e :: Sound(e, now) }

    /** One visit to `e` moves the entries of `e` and nothing else. */
    function Visited(e: string, v: Visit): Limiter {
      this.(tokens := tokens[e := After(BucketOf(e), ConfigOf(e), v).tokens], lastUpdate := lastUpdate[e := v.now],
            trace := trace[e := TraceOf(e) + [v]])
    }

    function Configured(e: string, c: Config): Limiter {
      this.(configs := configs[e := c], tokens := tokens[e := c.maxTokens], trace := trace[e := []],
            origin := if e in lastUpdate then origin[e := lastUpdate[e]] else origin)
    }

    function WasReset(e: string, now: real): Limiter {
      this.(tokens := tokens[e := ConfigOf(e).maxTokens], lastUpdate := lastUpdate[e := now],
            trace := trace[e := []], origin := origin[e := now])
    }
  }

  /** Nothing but the entries of `e` moved, and `e` is accounted for: so is everything. */
  lemma OthersStaySound(l: Limiter, l': Limiter, e: string, now: real, now': real)
    requires l.Valid(now) && now <= now' && l'.Sound(e, now') && l'.configs.Keys <= l'.tokens.Keys
    requires forall o :: o != e ==>
      l'.ConfigOf(o) == l.ConfigOf(o) && l'.BucketOf(o) == l.BucketOf(o) && l'.TraceOf(o) == l.TraceOf(o)
        && l'.OriginOf(o) == l.OriginOf(o)
    ensures l'.Valid(now')
  {
    forall o ensures l'.Sound(o, now') {
      assert l.Sound(o, now);
      if o != e {
        assert l'.ConfigOf(o) == l.ConfigOf(o) && l'.BucketOf(o) == l.BucketOf(o);
      }
    }
  }

  /** What a visit to `e` leaves in its entries, and that it touches no others. */
  lemma VisitedEntries(l: Limiter, e: string, v: Visit)
    ensures var l' := l.Visited(e, v);
      && l'.BucketOf(e) == After(l.BucketOf(e), l.ConfigOf(e), v) && l'.TraceOf(e) == l.TraceOf(e) + [v]
      && l'.ConfigOf(e) == l.ConfigOf(e) && l'.OriginOf(e) == l.OriginOf(e) && l'.configs == l.configs
        && l.tokens.Keys <= l'.tokens.Keys
    ensures var l' := l.Visited(e, v);
      forall o :: o != e ==>
        l'.ConfigOf(o) == l.ConfigOf(o) && l'.BucketOf(o) == l.BucketOf(o) && l'.TraceOf(o) == l.TraceOf(o)
          && l'.OriginOf(o) == l.OriginOf(o)
  {
    assert After(l.BucketOf(e), l.ConfigOf(e), v).last == Some(v.now);
  }

  lemma VisitKeepsValid(l: Limiter, e: string, v: Visit, now: real, now': real)
    requires l.Valid(now) && now <= v.now <= v.first <= now' && (v.Try? ==> v.amount > 0.0)
    ensures l.Visited(e, v).Valid(now') && l.Visited(e, v).BucketOf(e) == After(l.BucketOf(e), l.ConfigOf(e), v)
  {
    VisitedEntries(l, e, v);
    assert l.Sound(e, now);
    VisitAccounted(l.BucketOf(e), l.OriginOf(e), l.ConfigOf(e), l.TraceOf(e), now, v, now');
    assert l.Visited(e, v).Sound(e, now');
    OthersStaySound(l, l.Visited(e, v), e, now, now');
  }

  /** All that an endpoint of a limiter granted since its bucket was last filled. */
  function SpentBy(l: Limiter, e: string): real { Spent(l.OriginOf(e), l.ConfigOf(e), l.TraceOf(e)) }

  /** From `l` to `l'` the endpoint was granted this amount, and no other anything. */
  ghost predicate Spends(l: Limiter, l': Limiter, e: string, amount: real) {
    forall o :: SpentBy(l', o) == SpentBy(l, o) + if o == e then amount else 0.0
  }

  /** The latest visit to the endpoint was granted this amount. */
  predicate JustGranted(l: Limiter, e: string, amount: real) {
    EndsGranted(l.OriginOf(e), l.ConfigOf(e), l.TraceOf(e), amount)
  }

  /** A visit adds what it is granted to the account of its endpoint, and nothing to any other. */
  lemma VisitSpends(l: Limiter, e: string, v: Visit, now: real)
    requires l.Valid(now)
    ensures var l', granted := l.Visited(e, v), Grants(l.BucketOf(e), l.ConfigOf(e), v);
      && Spends(l, l', e, if granted then v.amount else 0.0)
      && (v.Try? && granted ==> JustGranted(l', e, v.amount))
  {
    VisitedEntries(l, e, v);
    assert l.Sound(e, now);
    SpentAfter(l.OriginOf(e), l.ConfigOf(e), l.TraceOf(e), v);
  }

  lemma ConfigureKeepsValid(l: Limiter, e: string, c: Config, now: real)
    requires l.Valid(now)
    ensures l.Configured(e, c).Valid(now)
  {
    assert l.Configured(e, c).Sound(e, now) by {
      assert l.Sound(e, now);
      FillAccounted(l.BucketOf(e), l.OriginOf(e), l.ConfigOf(e), l.TraceOf(e), now, c, now);
    }
    OthersStaySound(l, l.Configured(e, c), e, now, now);
  }

  lemma ResetKeepsValid(l: Limiter, e: string, now: real, now': real)
    requires l.Valid(now) && now <= now'
    ensures l.WasReset(e, now').Valid(now')
  {
    assert l.WasReset(e, now').Sound(e, now') by {
      assert l.Sound(e, now);
      FillAccounted(l.BucketOf(e), l.OriginOf(e), l.ConfigOf(e), l.TraceOf(e), now, l.ConfigOf(e), now');
    }
    OthersStaySound(l, l.WasReset(e, now'), e, now, now');
  }

  lemma TimePasses(l: Limiter, now: real, now': real)
    requires l.Valid(now) && now <= now'
    ensures l.Valid(now')
  {
    forall e ensures l.Sound(e, now') { assert l.Sound(e, now); }
  }

  /** What an endpoint of a limiter granted within a window, of the visits since its bucket was last filled. */
  function GrantedBy(l: Limiter, e: string, from: real, to: real): real {
    Granted(l.OriginOf(e), l.ConfigOf(e), l.TraceOf(e), from, to)
  }

  /** The rate limit of every endpoint of a limiter, over any window since its bucket was last filled by fiat. */
  lemma EveryEndpointIsLimited(l: Limiter, e: string, now: real, from: real, to: real)
    requires l.Valid(now) && from <= to && l.ConfigOf(e).maxTokens >= 0.0 && l.ConfigOf(e).refillRate >= 0.0
    ensures GrantedBy(l, e, from, to) <= l.ConfigOf(e).maxTokens + Accrued(l.ConfigOf(e), from, to)
  {
    assert l.Sound(e, now);
    WindowBound(l.OriginOf(e), l.ConfigOf(e), l.TraceOf(e), from, to);
  }

  class RateLimiter {
    const clock: Clock
    const default: Config
    var configs: map<string, Config>
    var tokens: map<string, real>
    var lastUpdate: map<string, real>
    ghost var trace: map<string, seq<Visit>>
    ghost var origin: map<string, real>

    ghost function View(): Limiter reads this { Limiter(default, configs, tokens, lastUpdate, trace, origin) }

    ghost predicate Valid() reads this, clock { View().Valid(clock.time) }

    constructor (clock: Clock, default: Config)
      ensures Valid() && this.clock == clock && this.default == default
      ensures forall e :: View().BucketOf(e) == Bucket(default.maxTokens, None)
    {
      this.clock, this.default := clock, default;
      configs, tokens, lastUpdate, trace, origin := map[], map[], map[], map[], map[];
      new;
      forall e ensures View().Sound(e, clock.time) { assert View().TraceOf(e) == []; }
    }

    function ConfigOf(e: string): Config reads this { if e in configs then configs[e] else default }

    method Configure(e: string, config: Config)
      requires Valid()
      modifies this
      ensures Valid() && View() == old(View()).Configured(e, config)
    {
      ConfigureKeepsValid(View(), e, config, clock.time);
      configs := configs[e := config];
      tokens := tokens[e := config.maxTokens];
      trace := trace[e := []];
      if e in lastUpdate {
        origin := origin[e := lastUpdate[e]];
      }
    }

    method Reset(e: string)
      requires Valid()
      modifies this, clock
      ensures Valid() && View() == old(View()).WasReset(e, clock.time)
    {
      tokens := tokens[e := ConfigOf(e).maxTokens];
      var now := clock.Read();
      lastUpdate := lastUpdate[e := now];
      trace, origin := trace[e := []], origin[e := now];
      ResetKeepsValid(old(View()), e, old(clock.time), now);
    }

    /** The head of `_refill`: the elapsed time, by a second reading if the endpoint is new. */
    method Elapse(e: string) returns (elapsed: real, ghost now: real, ghost first: real)
      modifies this`lastUpdate, clock
      ensures old(clock.time) <= now <= first <= clock.time
      ensures elapsed == now - if e in old(lastUpdate) then old(lastUpdate)[e] else first
      ensures lastUpdate == old(lastUpdate)[e := now]
    {
      var reading := clock.Read();
      now, first := reading, reading;
      if e !in lastUpdate {
        var seed := clock.Read();
        lastUpdate := lastUpdate[e := seed];
        first := seed;
      }
      elapsed := reading - lastUpdate[e];
      lastUpdate := lastUpdate[e := reading];
    }

    /** `_refill`: returns the two readings it went by. */
    method Refill(e: string) returns (ghost now: real, ghost first: real)
      modifies this`tokens, this`lastUpdate, clock
      ensures old(clock.time) <= now <= first <= clock.time
      ensures tokens == old(tokens)[e := Refilled(old(View()).BucketOf(e), ConfigOf(e), now, first).tokens]
      ensures lastUpdate == old(lastUpdate)[e := now]
    {
      ghost var b := View().BucketOf(e);
      var elapsed;
      elapsed, now, first := Elapse(e);
      var config := ConfigOf(e);
      if e !in tokens {
        tokens := tokens[e := default.maxTokens];
      }
      RefilledIsLevel(b, config, now, first, elapsed);
      tokens := tokens[e := Level(config, tokens[e], elapsed)];
    }

    method CanAcquire(e: string, amount: real) returns (yes: bool, ghost v: Visit)
      requires Valid()
      modifies this, clock
      ensures Valid() && View() == old(View()).Visited(e, v)
      ensures v.Poll? && old(clock.time) <= v.now <= v.first <= clock.time
      ensures yes == (View().BucketOf(e).tokens >= amount)
    {
      var now, first := Refill(e);
      yes := tokens[e] >= amount;
      v := Poll(now, first);
      trace := trace[e := View().TraceOf(e) + [v]];
      VisitKeepsValid(old(View()), e, v, old(clock.time), clock.time);
    }

    /** One round of `acquire`'s loop up to the grant or the sleep. */
    method TryAcquire(e: string, amount: real) returns (granted: bool, ghost v: Visit)
      requires Valid() && amount > 0.0
      modifies this, clock
      ensures Valid() && View() == old(View()).Visited(e, v)
      ensures v.Try? && v.amount == amount && old(clock.time) <= v.now <= v.first <= clock.time
      ensures granted == Grants(old(View()).BucketOf(e), ConfigOf(e), v)
    {
      var now, first := Refill(e);
      granted := tokens[e] >= amount;
      if granted {
        tokens := tokens[e := tokens[e] - amount];
      }
      v := Try(now, first, amount);
      trace := trace[e := View().TraceOf(e) + [v]];
      assert View() == old(View()).Visited(e, v);
      VisitKeepsValid(old(View()), e, v, old(clock.time), clock.time);
    }

    /** From now on, refilling the bucket of `e` gives what refilling `b` would have given. */
    ghost predicate RefillsLike(e: string, b: Bucket)
      reads this, clock
    {
      && View().BucketOf(e).last.Some? && View().BucketOf(e).last.value <= clock.time
      && forall now, first {:trigger Refilled(b, ConfigOf(e), now, first)} :: now >= clock.time ==>
           Refilled(View().BucketOf(e), ConfigOf(e), now, first) == Refilled(b, ConfigOf(e), now, first)
    }

    /** `acquire` sleeping: it holds the lock, but `can_acquire` does not take the lock, so others may
        look at any bucket meanwhile. */
    method Suspend(e: string, seconds: real)
      requires Valid() && RefillsLike(e, View().BucketOf(e)) && ConfigOf(e).refillRate >= 0.0
      modifies this, clock
      ensures Valid() && configs == old(configs) && RefillsLike(e, old(View()).BucketOf(e))
      ensures Spends(old(View()), View(), e, 0.0)
      ensures clock.time >= old(clock.time) && clock.time >= old(clock.time) + seconds
    {
      var wake := clock.time + seconds;
      var looks: nat := *;
      while looks > 0
        invariant Valid() && configs == old(configs) && clock.time >= old(clock.time)
        invariant RefillsLike(e, old(View()).BucketOf(e))
        invariant Spends(old(View()), View(), e, 0.0)
      {
        var endpoint: string, amount: real := *, *;
        ghost var l, c, before := View(), ConfigOf(e), clock.time;
        var _, v := CanAcquire(endpoint, amount);
        VisitSpends(l, endpoint, v, before);
        if endpoint == e {
          VisitKeepsValid(l, e, v, before, clock.time);
          forall now, first | now >= clock.time
            ensures Refilled(View().BucketOf(e), c, now, first) == Refilled(old(View()).BucketOf(e), c, now, first)
          {
            PollsCompose(l.BucketOf(e), c, v.now, now, v.first, first);
            assert Refilled(l.BucketOf(e), c, now, first) == Refilled(old(View()).BucketOf(e), c, now, first);
          }
        } else {
          assert View().BucketOf(e) == l.BucketOf(e);
        }
        looks := looks - 1;
      }
      ghost var slept := clock.time;
      clock.Sleep(wake - clock.time);
      TimePasses(View(), slept, clock.time);
    }

    /** The sleep of `acquire`, after which the bucket can pay. */
    method AwaitDeficit(e: string, amount: real) returns (wait: real)
      requires Valid() && ConfigOf(e).refillRate > 0.0 && e in tokens && tokens[e] < amount <= ConfigOf(e).maxTokens
      requires RefillsLike(e, View().BucketOf(e))
      modifies this, clock
      ensures Valid() && configs == old(configs) && Spends(old(View()), View(), e, 0.0)
      ensures clock.time >= old(clock.time) && clock.time >= old(clock.time) + wait
      ensures forall now, first {:trigger Refilled(View().BucketOf(e), ConfigOf(e), now, first)} ::
        now >= clock.time ==> Refilled(View().BucketOf(e), ConfigOf(e), now, first).tokens >= amount
    {
      var config := ConfigOf(e);
      ghost var b := View().BucketOf(e);
      wait := (amount - tokens[e]) / config.refillRate;
      Suspend(e, wait);
      assert ConfigOf(e) == config;
      forall now, first | now >= clock.time
        ensures Refilled(View().BucketOf(e), config, now, first).tokens >= amount
      {
        DeficitRefilled(b, config, amount, now, first);
        assert Refilled(View().BucketOf(e), config, now, first) == Refilled(b, config, now, first);
      }
    }

    /** `acquire`: a feasible request is granted after at most one sleep. If the endpoint never refills, it is
        granted exactly when the bucket can pay it, and fails otherwise. */
    method Acquire(e: string, amount: real) returns (r: Acquired)
      requires Valid() && ConfigOf(e).refillRate >= 0.0
      modifies this, clock
      ensures Valid() && configs == old(configs)
      ensures r == NothingAsked <==> amount <= 0.0
      ensures r == ExceedsCapacity <==> amount > 0.0 && amount > ConfigOf(e).maxTokens
      ensures r == NothingAsked || r == ExceedsCapacity ==> View() == old(View())
      ensures r == DividedByZero ==> ConfigOf(e).refillRate == 0.0 && View().BucketOf(e).tokens < amount
      ensures r.Acquired? ==>
        && r.sleeps <= 1 && (r.sleeps == 0 ==> r.waited == 0.0) && clock.time >= old(clock.time) + r.waited
        && 0.0 <= View().BucketOf(e).tokens <= ConfigOf(e).maxTokens - amount
        && (ConfigOf(e).refillRate == 0.0 ==> r.sleeps == 0)
      ensures r.Acquired? ==> JustGranted(View(), e, amount)
      ensures Spends(old(View()), View(), e, if r.Acquired? then amount else 0.0)
    {
      if amount <= 0.0 {
        return NothingAsked;
      }
      var config := ConfigOf(e);
      if amount > config.maxTokens {
        return ExceedsCapacity;
      }
      var waited, sleeps := 0.0, 0;
      while true
        invariant Valid() && configs == old(configs) && sleeps <= 1
        invariant config.refillRate == 0.0 ==> sleeps == 0
        invariant sleeps == 0 ==> waited == 0.0
        invariant clock.time >= old(clock.time) + waited
        invariant Spends(old(View()), View(), e, 0.0)
        invariant sleeps == 1 ==> forall now, first {:trigger Refilled(View().BucketOf(e), config, now, first)} ::
          now >= clock.time ==> Refilled(View().BucketOf(e), config, now, first).tokens >= amount
        decreases 1 - sleeps
      {
        ghost var l, before := View(), clock.time;
        var granted, v := TryAcquire(e, amount);
        VisitKeepsValid(l, e, v, before, clock.time);
        VisitSpends(l, e, v, before);
        if granted {
          return Acquired(waited, sleeps);
        }
        if config.refillRate == 0.0 {
          return DividedByZero;
        }
        var wait := AwaitDeficit(e, amount);
        assert ConfigOf(e) == config;
        waited, sleeps := waited + wait, sleeps + 1;
      }
    }
  }
}
