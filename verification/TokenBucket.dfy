/** The token bucket of the REST rate limiter, as a run of refills and takes on one endpoint. */
module TokenBucket {
  import opened Options
  import opened RealMath

  datatype Config = Config(maxTokens: real, refillRate: real)

  /** `last` is None while the defaultdict of last updates has no entry for the endpoint. */
  datatype Bucket = Bucket(tokens: real, last: Option<real>)

  /** One pass over the bucket: `now` is the reading `_refill` takes, `first` the later reading that
      seeds a missing last-update entry. `Poll` is `can_acquire`; `Try` one round of `acquire`'s loop. */
  datatype Visit = Poll(now: real, first: real) | Try(now: real, first: real, amount: real)

  function Gain(c: Config, elapsed: real): real { elapsed * c.refillRate }

  function Level(c: Config, tokens: real, elapsed: real): real { Min(c.maxTokens, tokens + Gain(c, elapsed)) }

  function Refilled(b: Bucket, c: Config, now: real, first: real): Bucket {
    Bucket(Level(c, b.tokens, now - if b.last.Some? then b.last.value else first), Some(now))
  }

  lemma RefilledIsLevel(b: Bucket, c: Config, now: real, first: real, elapsed: real)
    requires elapsed == now - if b.last.Some? then b.last.value else first
    ensures Refilled(b, c, now, first).tokens == Level(c, b.tokens, elapsed)
  {
  }

  predicate Grants(b: Bucket, c: Config, v: Visit) { v.Try? && Refilled(b, c, v.now, v.first).tokens >= v.amount }

  function After(b: Bucket, c: Config, v: Visit): Bucket {
    var r := Refilled(b, c, v.now, v.first);
    if Grants(b, c, v) then r.(tokens := r.tokens - v.amount) else r
  }

  /** A full bucket, last updated at `last`, after the visits of a run. */
  function Run(last: Option<real>, c: Config, vs: seq<Visit>): Bucket {
    if vs == [] then Bucket(c.maxTokens, last) else After(Run(last, c, vs[..|vs|-1]), c, vs[|vs|-1])
  }

  /** Tokens granted by the visits made at a time within [from, to]. */
  function Granted(last: Option<real>, c: Config, vs: seq<Visit>, from: real, to: real): real {
    if vs == [] then 0.0
    else
      var v := vs[|vs|-1];
      Granted(last, c, vs[..|vs|-1], from, to)
        + if from <= v.now <= to && Grants(Run(last, c, vs[..|vs|-1]), c, v) then v.amount else 0.0
  }

  /** All that the visits of a run were granted. */
  function Spent(last: Option<real>, c: Config, vs: seq<Visit>): real {
    if vs == [] then 0.0
    else
      var before, v := vs[..|vs|-1], vs[|vs|-1];
      Spent(last, c, before) + if Grants(Run(last, c, before), c, v) then v.amount else 0.0
  }

  /** The run ends with a grant of this amount. */
  predicate EndsGranted(last: Option<real>, c: Config, vs: seq<Visit>, amount: real) {
    vs != [] &&
    var v := vs[|vs|-1];
    v.Try? && v.amount == amount && Grants(Run(last, c, vs[..|vs|-1]), c, v)
  }

  lemma {:induction false} SpentAfter(last: Option<real>, c: Config, vs: seq<Visit>, v: Visit)
    ensures Spent(last, c, vs + [v]) == Spent(last, c, vs) + if Grants(Run(last, c, vs), c, v) then v.amount else 0.0
    ensures EndsGranted(last, c, vs + [v], if v.Try? then v.amount else 0.0) <==> Grants(Run(last, c, vs), c, v)
  {
    assert (vs + [v])[..|vs|] == vs;
  }

  /** The clock never runs backwards, and `acquire` never asks the bucket for nothing. */
  ghost predicate Timely(last: Option<real>, vs: seq<Visit>) {
    && (forall i | 0 <= i < |vs| :: vs[i].now <= vs[i].first && (vs[i].Try? ==> vs[i].amount > 0.0))
    && (forall i, j | 0 <= i < j < |vs| :: vs[i].now <= vs[j].now)
    && (last.Some? && vs != [] ==> last.value <= vs[0].now)
  }

  lemma {:induction false} LastIsLatest(last: Option<real>, c: Config, vs: seq<Visit>)
    ensures Run(last, c, vs).last == if vs == [] then last else Some(vs[|vs|-1].now)
  {
  }

  /** A try on a bucket last updated at `since` is granted exactly if the bucket holds that many tokens and what
      has accrued since makes up for the rest; a poll is granted nothing. Both leave the bucket updated. */
  lemma GrantsIff(b: Bucket, c: Config, since: real, now: real, first: real, amount: real)
    requires b.last == Some(since)
    ensures var held := if b.tokens + (now - since) * c.refillRate <= c.maxTokens
                        then b.tokens + (now - since) * c.refillRate else c.maxTokens;
      && After(b, c, Poll(now, first)) == Bucket(held, Some(now)) && !Grants(b, c, Poll(now, first))
      && (Grants(b, c, Try(now, first, amount)) <==> amount <= held)
      && After(b, c, Try(now, first, amount)) == Bucket(if amount <= held then held - amount else held, Some(now))
  {
  }

  /** A window that holds all visits grants all that is spent. */
  lemma {:induction false} WindowOfAll(last: Option<real>, c: Config, vs: seq<Visit>, from: real, to: real)
    requires forall v <- vs :: from <= v.now <= to
    ensures Granted(last, c, vs, from, to) == Spent(last, c, vs)
  {
    if vs != [] {
      assert forall v <- vs[..|vs|-1] :: v in vs;
      WindowOfAll(last, c, vs[..|vs|-1], from, to);
      assert vs[|vs|-1] in vs;
    }
  }

  /** Without refills, what is spent and what is left are a full bucket. */
  lemma {:induction false} SpentComesOut(last: Option<real>, max: real, vs: seq<Visit>)
    requires forall v <- vs :: v.Try? ==> v.amount > 0.0
    ensures var c := Config(max, 0.0);
      Spent(last, c, vs) + Run(last, c, vs).tokens == max && 0.0 <= Spent(last, c, vs)
  {
    if vs != [] {
      assert forall v <- vs[..|vs|-1] :: v in vs;
      var c, v := Config(max, 0.0), vs[|vs|-1];
      SpentComesOut(last, max, vs[..|vs|-1]);
      assert v in vs;
      var b := Run(last, c, vs[..|vs|-1]);
      var elapsed := v.now - if b.last.Some? then b.last.value else v.first;
      RefilledIsLevel(b, c, v.now, v.first, elapsed);
      assert Gain(c, elapsed) == 0.0;
    }
  }

  /** What the endpoint refills between two instants. */
  function Accrued(c: Config, from: real, to: real): real { Gain(c, to - from) }

  lemma GainIsNotNegative(c: Config, elapsed: real)
    requires elapsed >= 0.0 && c.refillRate >= 0.0
    ensures Gain(c, elapsed) >= 0.0
  {
    MulNonNegative(elapsed, c.refillRate);
  }

  lemma GainsAdd(c: Config, s: real, t: real)
    ensures Gain(c, s) + Gain(c, t) == Gain(c, s + t)
  {
    Distribute(s, t, c.refillRate);
  }

  /** Between two visits the level rises by at most what accrues. */
  lemma RefillGains(b: Bucket, c: Config, v: Visit, since: real)
    requires c.refillRate >= 0.0 && b.last == Some(since) && since <= v.now
    ensures Refilled(b, c, v.now, v.first).tokens <= b.tokens + Accrued(c, since, v.now)
    ensures b.tokens <= c.maxTokens ==> b.tokens <= Refilled(b, c, v.now, v.first).tokens
  {
    var elapsed := v.now - since;
    GainIsNotNegative(c, elapsed);
    assert Refilled(b, c, v.now, v.first).tokens == Level(c, b.tokens, elapsed);
    LevelBounds(c.maxTokens, b.tokens, Gain(c, elapsed));
  }

  lemma LevelBounds(max: real, tokens: real, gain: real)
    requires gain >= 0.0
    ensures Min(max, tokens + gain) <= tokens + gain && (tokens <= max ==> tokens <= Min(max, tokens + gain))
  {
  }

  lemma AccrualsAdd(c: Config, from: real, until: real, to: real)
    requires c.refillRate >= 0.0 && from <= until <= to
    ensures 0.0 <= Accrued(c, from, until) && 0.0 <= Accrued(c, until, to)
    ensures Accrued(c, from, until) + Accrued(c, until, to) == Accrued(c, from, to)
  {
    GainIsNotNegative(c, until - from);
    GainIsNotNegative(c, to - until);
    GainsAdd(c, until - from, to - until);
    assert until - from + (to - until) == to - from;
  }

  /** `paid` tokens granted since `from` and a level of `left` are covered at time `now`. */
  ghost predicate Covered(c: Config, paid: real, left: real, from: real, now: real) {
    0.0 <= left && from <= now && paid + left <= c.maxTokens + Accrued(c, from, now)
  }

  /** What was granted in the window, and what is left, is paid for by a full bucket and the refills
      since the window opened. */
  lemma {:induction false} WindowPays(last: Option<real>, c: Config, vs: seq<Visit>, from: real, to: real)
    requires c.refillRate >= 0.0 && Timely(last, vs) && (vs != [] ==> vs[|vs|-1].now <= to)
    ensures Run(last, c, vs).tokens <= c.maxTokens && Granted(last, c, vs, from, to) >= 0.0
    ensures Granted(last, c, vs, from, to) > 0.0 ==>
      vs != [] && Covered(c, Granted(last, c, vs, from, to), Run(last, c, vs).tokens, from, vs[|vs|-1].now)
  {
    if vs != [] {
      var init, v := vs[..|vs|-1], vs[|vs|-1];
      assert init != [] ==> init[|init|-1] == vs[|vs|-2];
      WindowPays(last, c, init, from, to);
      LastIsLatest(last, c, init);
      VisitPays(Run(last, c, init), c, v, Granted(last, c, init, from, to), from);
      if Granted(last, c, init, from, to) <= 0.0 && from <= v.now && v.Try? {
        AccrualsAdd(c, from, from, v.now);
      }
    }
  }

  lemma VisitPays(b: Bucket, c: Config, v: Visit, paid: real, from: real)
    requires c.refillRate >= 0.0 && b.tokens <= c.maxTokens
    requires paid > 0.0 ==> b.last.Some? && b.last.value <= v.now && Covered(c, paid, b.tokens, from, b.last.value)
    ensures paid > 0.0 ==> Covered(c, paid, Refilled(b, c, v.now, v.first).tokens, from, v.now)
  {
    if paid > 0.0 {
      RefillGains(b, c, v, b.last.value);
      AccrualsAdd(c, from, b.last.value, v.now);
    }
  }

  /** The rate limit: over any window of any run, an endpoint grants at most a full bucket plus what
      the window refills. */
  lemma {:induction false} WindowBound(last: Option<real>, c: Config, vs: seq<Visit>, from: real, to: real)
    requires c.maxTokens >= 0.0 && c.refillRate >= 0.0 && Timely(last, vs) && from <= to
    ensures Granted(last, c, vs, from, to) <= c.maxTokens + Accrued(c, from, to)
  {
    AccrualsAdd(c, from, from, to);
    if vs != [] && vs[|vs|-1].now > to {
      WindowBound(last, c, vs[..|vs|-1], from, to);
    } else {
      WindowPays(last, c, vs, from, to);
      if Granted(last, c, vs, from, to) > 0.0 {
        AccrualsAdd(c, from, vs[|vs|-1].now, to);
      }
    }
  }

  /** The very first refill of an endpoint measures a time that is not positive: how far the second
      reading lies after the first. */
  ghost predicate SkewCovered(last: Option<real>, c: Config, vs: seq<Visit>) {
    vs == [] || last.Some? || Accrued(c, vs[0].now, vs[0].first) <= c.maxTokens
  }

  lemma SkewIsNegative(c: Config, v: Visit)
    ensures Gain(c, v.now - v.first) == -Accrued(c, v.now, v.first)
  {
    GainsAdd(c, v.now - v.first, v.first - v.now);
    assert v.now - v.first + (v.first - v.now) == 0.0;
  }

  lemma {:induction false} LevelStaysIn(last: Option<real>, c: Config, vs: seq<Visit>)
    requires c.maxTokens >= 0.0 && c.refillRate >= 0.0 && Timely(last, vs) && SkewCovered(last, c, vs)
    ensures 0.0 <= Run(last, c, vs).tokens <= c.maxTokens
  {
    if vs != [] {
      var init, v := vs[..|vs|-1], vs[|vs|-1];
      LevelStaysIn(last, c, init);
      LastIsLatest(last, c, init);
      if init != [] {
        assert init[|init|-1] == vs[|vs|-2];
        RefillGains(Run(last, c, init), c, v, init[|init|-1].now);
      } else if last.Some? {
        RefillGains(Run(last, c, init), c, v, last.value);
      } else {
        SkewIsNegative(c, v);
      }
    }
  }

  /** The level stays within [0, max] throughout a run exactly when the gap between the two readings of
      the first refill costs no more than a full bucket. */
  lemma {:induction false} LevelBoundedIff(last: Option<real>, c: Config, vs: seq<Visit>)
    requires c.maxTokens >= 0.0 && c.refillRate >= 0.0 && Timely(last, vs)
    ensures SkewCovered(last, c, vs) <==>
            forall k | 0 <= k <= |vs| :: 0.0 <= Run(last, c, vs[..k]).tokens <= c.maxTokens
  {
    if SkewCovered(last, c, vs) {
      forall k | 0 <= k <= |vs| ensures 0.0 <= Run(last, c, vs[..k]).tokens <= c.maxTokens {
        LevelStaysIn(last, c, vs[..k]);
      }
    } else {
      var first := vs[..1];
      assert first[..0] == [] && first[0] == vs[0];
      var b := Run(last, c, []);
      assert Run(last, c, first) == After(b, c, vs[0]);
      SkewIsNegative(c, vs[0]);
      assert Run(last, c, first).tokens < 0.0;
    }
  }

  /** One token at most, one a second: if three seconds pass between the two readings of the first refill, the
      bucket starts two tokens in debt. */
  lemma FirstRefillMayOwe()
    ensures var c, vs := Config(1.0, 1.0), [Poll(0.0, 3.0)];
      Timely(None, vs) && Run(None, c, vs).tokens == -2.0
  {
    var c, vs := Config(1.0, 1.0), [Poll(0.0, 3.0)];
    assert vs[..0] == [] && Run(None, c, []) == Bucket(1.0, None);
    assert Gain(c, -3.0) == -3.0;
    assert After(Bucket(1.0, None), c, vs[0]).tokens == -2.0;
  }

  /** Polls only gain: however often others look at the bucket, the refills compose into one. */
  lemma {:induction false} PollsCompose(b: Bucket, c: Config, now: real, now': real, first: real, first': real)
    requires b.last.Some? && b.last.value <= now <= now' && c.refillRate >= 0.0
    ensures Refilled(Refilled(b, c, now, first), c, now', first') == Refilled(b, c, now', first')
  {
    GainIsNotNegative(c, now' - now);
    GainIsNotNegative(c, now - b.last.value);
    GainsAdd(c, now - b.last.value, now' - now);
    assert now - b.last.value + (now' - now) == now' - b.last.value;
  }

  /** A bucket that has been polled until the deficit is refilled can pay. */
  lemma DeficitRefilled(b: Bucket, c: Config, amount: real, now: real, first: real)
    requires b.last.Some? && c.refillRate > 0.0 && b.tokens < amount <= c.maxTokens
    requires now - b.last.value >= (amount - b.tokens) / c.refillRate
    ensures Refilled(b, c, now, first).tokens >= amount
  {
    var deficit, elapsed := amount - b.tokens, now - b.last.value;
    var needed := deficit / c.refillRate;
    assert needed * c.refillRate == deficit;
    MulLe(needed, elapsed, c.refillRate);
    assert Gain(c, elapsed) >= deficit;
  }

  /** A bucket whose level is the outcome of a timely run that ended no later than `now`. */
  ghost predicate Accounted(b: Bucket, last: Option<real>, c: Config, vs: seq<Visit>, now: real) {
    && b == Run(last, c, vs) && Timely(last, vs)
    && (last.Some? ==> last.value <= now) && (vs != [] ==> vs[|vs|-1].now <= now)
  }

  lemma VisitAccounted(b: Bucket, last: Option<real>, c: Config, vs: seq<Visit>, now: real, v: Visit, now': real)
    requires Accounted(b, last, c, vs, now) && now <= v.now <= v.first <= now' && (v.Try? ==> v.amount > 0.0)
    ensures Accounted(After(b, c, v), last, c, vs + [v], now')
  {
    assert (vs + [v])[..|vs|] == vs;
  }

  /** A bucket filled by fiat starts a new account. */
  lemma FillAccounted(b: Bucket, last: Option<real>, c: Config, vs: seq<Visit>, now: real, c': Config, now': real)
    requires Accounted(b, last, c, vs, now) && now <= now'
    ensures Accounted(Bucket(c'.maxTokens, b.last), if b.last.Some? then b.last else last, c', [], now)
    ensures Accounted(Bucket(c'.maxTokens, Some(now')), Some(now'), c', [], now')
  {
    LastIsLatest(last, c, vs);
  }
}
