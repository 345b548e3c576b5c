/** What every run of the profit lock keeps: the profit floor, the trailing ratchet, the counters,
    and what becomes of the profit cap. */
module ProfitLockRuns {
  import opened Options
  import opened ProfitLock
  import opened RealMath

  /** The slot after a whole run of events on a fresh engine. Placements may complete, fail or be
      reported in any order and any number of times: the environment is not trusted. */
  ghost function Run(es: seq<Event>): Option<Lock> {
    if es == [] then None else Step(Run(es[..|es|-1]), es[|es|-1]).slot
  }

  /** The gain that `percentage` stands for, said about prices. */
  ghost predicate GainReaches(c: Config, price: real, percent: real) {
    if c.side == "long" then price >= c.entry * (1.0 + percent / 100.0)
    else price <= c.entry * (1.0 - percent / 100.0)
  }

  ghost predicate Computable(c: Config, price: real) {
    c.entry > 0.0 && price > 0.0 && c.quantity > 0.0 && c.side in {"long", "short"}
  }

  ghost predicate CapHit(c: Config, price: real) { c.cap > 0.0 && GainReaches(c, price, c.cap) }

  lemma PercentageMeansGain(c: Config, price: real, percent: real)
    requires Computable(c, price)
    ensures Calculate(c.entry, price, c.quantity, c.side).Some?
    ensures Calculate(c.entry, price, c.quantity, c.side).value.percentage >= percent
      <==> GainReaches(c, price, percent)
  {
    var e, q := c.entry, c.quantity;
    var gain := if c.side == "long" then price - e else e - price;
    var x := (gain * q) / (e * q);
    assert e * q > 0.0;
    assert x * (e * q) == gain * q;
    assert (x * e - gain) * q == 0.0;
    assert x * e == gain;
    assert x * 100.0 >= percent <==> x >= percent / 100.0;
    assert x >= percent / 100.0 <==> x * e >= percent / 100.0 * e;
  }

  /** The prices a lock has to trail since it was last enabled: the entry price, the price that
      triggered it, and every later price it handled while triggered that did not hit the cap. */
  ghost function Watched(es: seq<Event>): seq<real> {
    if es == [] then [] else WatchedAfter(Watched(es[..|es|-1]), Run(es[..|es|-1]), es[|es|-1])
  }

  ghost function WatchedAfter(watched: seq<real>, slot: Option<Lock>, e: Event): seq<real> {
    match e
    case Enable(c) => if Acceptable(c) then [c.entry] else watched
    case Price(p) =>
      if slot.None? || !Watching(slot.value.state) then watched
      else
        var c := slot.value.state.config;
        if Computable(c, p) && !CapHit(c, p) && (slot.value.state.status == Triggered || GainReaches(c, p, c.trigger))
        then watched + [p] else watched
    case _ => watched
  }

  ghost predicate IsMaximum(m: real, s: seq<real>) { m in s && forall x <- s :: x <= m }

  ghost predicate Trailing(s: State) { s.status in {Triggered, Executing} }

  ghost function Floor(c: Config): real { c.entry * (1.0 + c.trigger / 100.0) * (1.0 - c.trail / 100.0) }

  ghost predicate TrailingInv(s: State, watched: seq<real>) {
    && Acceptable(s.config) && s.config.entry > 0.0
    && (s.config.cap > 0.0 ==> s.config.cap > s.config.trigger)
    && s.highest.Some? && IsMaximum(s.highest.value, watched)
    && s.lockPrice == Some(LockPriceFor(s.highest.value, s.config.trail))
    && (s.config.side == "long" ==> s.highest.value >= s.config.entry * (1.0 + s.config.trigger / 100.0))
  }

  ghost predicate Inv(l: Lock, watched: seq<real>) {
    var s, m := l.state, l.metrics;
    && (s.status == Monitoring ==> s == Fresh(s.config, s.generation).(lockOrderId := s.lockOrderId)
                                   && Acceptable(s.config) && watched == [s.config.entry])
    && (Trailing(s) ==> TrailingInv(s, watched))
    && m.locksTriggered + (if s.status == Monitoring then 1 else 0) <= s.generation
    && m.locksExecuted + (if Trailing(s) then 1 else 0) <= m.locksTriggered
  }

  lemma HigherPeakHigherLock(low: real, high: real, trail: real)
    requires trail < 100.0 && low < high
    ensures LockPriceFor(low, trail) < LockPriceFor(high, trail)
  {
    var kept := 1.0 - trail / 100.0;
    MulLt(low, high, kept);
    assert LockPriceFor(low, trail) == low * kept && LockPriceFor(high, trail) == high * kept;
  }

  lemma MonitoringPriceKeepsInv(l: Lock, watched: seq<real>, p: real)
    requires Inv(l, watched) && l.state.status == Monitoring && Computable(l.state.config, p)
    ensures Inv(Priced(Some(l), p).slot.value, WatchedAfter(watched, Some(l), Price(p)))
  {
    var c := l.state.config;
    PercentageMeansGain(c, p, c.trigger);
    PercentageMeansGain(c, p, c.cap);
  }

  lemma CapHitKeepsInv(l: Lock, watched: seq<real>, p: real)
    requires Inv(l, watched) && l.state.status == Triggered && l.state.enabled && Computable(l.state.config, p)
    requires CapHit(l.state.config, p)
    ensures Inv(Priced(Some(l), p).slot.value, WatchedAfter(watched, Some(l), Price(p)))
  {
    PercentageMeansGain(l.state.config, p, l.state.config.cap);
  }

  lemma TrailingPriceKeepsInv(l: Lock, watched: seq<real>, p: real)
    requires Inv(l, watched) && l.state.status == Triggered && l.state.enabled && Computable(l.state.config, p)
    requires !CapHit(l.state.config, p)
    ensures Inv(Priced(Some(l), p).slot.value, WatchedAfter(watched, Some(l), Price(p)))
  {
    var c, h := l.state.config, l.state.highest.value;
    PercentageMeansGain(c, p, c.cap);
    if p > h {
      HigherPeakHigherLock(h, p, c.trail);
    }
  }

  lemma StepKeepsInv(slot: Option<Lock>, watched: seq<real>, e: Event)
    requires slot.Some? ==> Inv(slot.value, watched)
    ensures Step(slot, e).slot.Some? ==> Inv(Step(slot, e).slot.value, WatchedAfter(watched, slot, e))
  {
    if slot.Some? && e.Price? && Watching(slot.value.state) && Computable(slot.value.state.config, e.price) {
      if slot.value.state.status == Monitoring {
        MonitoringPriceKeepsInv(slot.value, watched, e.price);
      } else {
        if CapHit(slot.value.state.config, e.price) {
          CapHitKeepsInv(slot.value, watched, e.price);
        } else {
          TrailingPriceKeepsInv(slot.value, watched, e.price);
        }
      }
    }
  }

  lemma {:induction false} RunKeepsInv(es: seq<Event>)
    ensures Run(es).Some? ==> Inv(Run(es).value, Watched(es))
  {
    if es != [] {
      RunKeepsInv(es[..|es|-1]);
      StepKeepsInv(Run(es[..|es|-1]), Watched(es[..|es|-1]), es[|es|-1]);
    }
  }

  // ------------------------------------------------------------------ profit floor

  /** A trail order never undercuts the floor of its lock. */
  lemma TrailAboveFloor(c: Config, peak: real)
    requires Acceptable(c) && peak >= c.entry * (1.0 + c.trigger / 100.0)
    ensures LockPriceFor(peak, c.trail) >= Floor(c)
  {
    var kept := 1.0 - c.trail / 100.0;
    MulLe(c.entry * (1.0 + c.trigger / 100.0), peak, kept);
    assert LockPriceFor(peak, c.trail) == peak * kept;
  }

  /** Neither does a cap order, once the cap exceeds the trigger. */
  lemma CapAboveFloor(c: Config, price: real)
    requires Acceptable(c) && c.entry > 0.0 && c.cap > c.trigger && price >= c.entry * (1.0 + c.cap / 100.0)
    ensures price >= Floor(c)
  {
    var kept, low, high := 1.0 - c.trail / 100.0, 1.0 + c.trigger / 100.0, 1.0 + c.cap / 100.0;
    MulLt(low, high, c.entry);
    var goal := c.entry * low;
    assert price >= goal && Floor(c) == goal * kept;
    MulLe(0.0, low, c.entry);
    MulLe(kept, 1.0, goal);
  }

  /** What order a price makes a triggered lock send. */
  lemma OrderForPrice(l: Lock, p: real)
    requires Priced(Some(l), p).request.Some? && l.state.status == Triggered
    ensures Computable(l.state.config, p)
    ensures var c, o := l.state.config, Priced(Some(l), p).request.value;
      && o.side == (if c.side == "long" then "sell" else "buy") && o.quantity == c.quantity && o.automatic
      && (if CapHit(c, p) then o.price == p else l.state.lockPrice.Some? && p <= o.price == l.state.lockPrice.value)
  {
    var c := l.state.config;
    assert Computable(c, p);
    PercentageMeansGain(c, p, c.cap);
  }

  lemma OrderAboveFloor(l: Lock, watched: seq<real>, p: real)
    requires Inv(l, watched) && l.state.status == Triggered && l.state.config.side == "long"
      && Priced(Some(l), p).request.Some?
    ensures Priced(Some(l), p).request.value.price >= Floor(l.state.config)
  {
    OrderForPrice(l, p);
    if CapHit(l.state.config, p) {
      CapAboveFloor(l.state.config, p);
    } else {
      TrailAboveFloor(l.state.config, l.state.highest.value);
    }
  }

  /** In every run, whatever order the next price makes a long lock send is a sell of the whole
      position at or above the floor; so it never sells below entry when the floor is not below it. */
  lemma {:induction false} ProfitFloor(es: seq<Event>, p: real)
    requires Run(es).Some? && Run(es).value.state.config.side == "long"
    requires Step(Run(es), Price(p)).request.Some?
    ensures var c, o := Run(es).value.state.config, Step(Run(es), Price(p)).request.value;
      && o.side == "sell" && o.quantity == c.quantity && o.automatic
      && o.price >= Floor(c)
      && (Floor(c) >= c.entry ==> o.price >= c.entry)
  {
    RunKeepsInv(es);
    OnlyTriggeredLocksSell(es, Price(p));
    OrderForPrice(Run(es).value, p);
    OrderAboveFloor(Run(es).value, Watched(es), p);
  }

  /** Only a price can make the lock send an order of its own accord, and only while it is triggered. */
  lemma {:induction false} OnlyTriggeredLocksSell(es: seq<Event>, e: Event)
    requires Step(Run(es), e).request.Some?
    ensures Run(es).value.state.status == Triggered && Step(Run(es), e).slot.value.state.status == Executing
    ensures Step(Run(es), e).request.value.automatic <==> e.Price?
    ensures e.Execute? ==> Step(Run(es), e).request.value.price == e.price
  {
    RunKeepsInv(es);
  }

  // ------------------------------------------------------------------ trailing ratchet

  /** While a lock trails, its peak is the highest price it had to watch and its lock price follows the peak. */
  lemma {:induction false} PeakIsHighestWatched(es: seq<Event>)
    requires Run(es).Some? && Trailing(Run(es).value.state)
    ensures var s := Run(es).value.state;
      && s.highest.Some? && IsMaximum(s.highest.value, Watched(es))
      && s.lockPrice == Some(LockPriceFor(s.highest.value, s.config.trail))
      && s.config.entry in Watched(es)
  {
    RunKeepsInv(es);
    EntryIsWatched(es);
  }

  lemma StepKeepsConfig(slot: Option<Lock>, e: Event)
    requires slot.Some? && !e.Enable?
    ensures Step(slot, e).slot.Some? && Step(slot, e).slot.value.state.config == slot.value.state.config
  {
  }

  lemma EntryStaysWatched(slot: Option<Lock>, watched: seq<real>, e: Event)
    requires slot.Some? && slot.value.state.config.entry in watched && !e.Enable?
    ensures slot.value.state.config.entry in WatchedAfter(watched, slot, e)
  {
  }

  lemma {:induction false} EntryIsWatched(es: seq<Event>)
    requires Run(es).Some?
    ensures Run(es).value.state.config.entry in Watched(es)
  {
    var before, e := es[..|es|-1], es[|es|-1];
    if Run(before).Some? {
      EntryIsWatched(before);
      if !e.Enable? {
        StepKeepsConfig(Run(before), e);
        EntryStaysWatched(Run(before), Watched(before), e);
      }
    }
  }

  ghost function Phase(s: State): nat { if s.status == Monitoring then 0 else if Trailing(s) then 1 else 2 }

  lemma {:induction false} StepRatchets(es: seq<Event>, e: Event)
    requires Run(es).Some?
    ensures Run(es + [e]) == Step(Run(es), e).slot && Run(es + [e]).Some?
    ensures var s, t := Run(es).value.state, Run(es + [e]).value.state;
      && s.generation <= t.generation
      && (s.generation == t.generation ==> s.config == t.config && Phase(s) <= Phase(t))
      && (s.generation == t.generation && Trailing(s) && Trailing(t) ==>
            && s.highest.Some? && t.highest.Some? && s.highest.value <= t.highest.value
            && s.lockPrice.Some? && t.lockPrice.Some? && s.lockPrice.value <= t.lockPrice.value)
  {
    RunKeepsInv(es);
    RunKeepsInv(es + [e]);
    assert (es + [e])[..|es|] == es;
    var s, t := Run(es).value.state, Run(es + [e]).value.state;
    if Trailing(s) && Trailing(t) && s.highest.value < t.highest.value {
      HigherPeakHigherLock(s.highest.value, t.highest.value, s.config.trail);
    }
  }

  /** The stop never moves down: between any two moments of a run at which the same enabling of the
      lock is trailing, through cancellations, failures and manual orders alike. */
  lemma {:induction false} TrailingRatchet(es: seq<Event>, later: seq<Event>)
    requires Run(es).Some? && Trailing(Run(es).value.state)
    ensures Run(es + later).Some?
    ensures var s, t := Run(es).value.state, Run(es + later).value.state;
      && s.generation <= t.generation
      && (s.generation == t.generation ==>
            && Phase(t) >= 1
            && (Trailing(t) ==>
                  && s.highest.Some? && t.highest.Some? && s.highest.value <= t.highest.value
                  && s.lockPrice.Some? && t.lockPrice.Some? && s.lockPrice.value <= t.lockPrice.value))
  {
    if later == [] {
      assert es + later == es;
      RunKeepsInv(es);
    } else {
      var n := |later| - 1;
      TrailingRatchet(es, later[..n]);
      assert (es + later[..n]) + [later[n]] == es + later;
      StepRatchets(es + later[..n], later[n]);
    }
  }

  /** The number of accepted enablings in a run. */
  ghost function Enablings(es: seq<Event>): nat {
    if es == [] then 0
    else Enablings(es[..|es|-1]) + if es[|es|-1].Enable? && Acceptable(es[|es|-1].config) then 1 else 0
  }

  function Generation(slot: Option<Lock>): nat { if slot.None? then 0 else slot.value.state.generation }

  lemma EnablingCounts(slot: Option<Lock>, e: Event)
    ensures Generation(Step(slot, e).slot)
         == Generation(slot) + if e.Enable? && Acceptable(e.config) then 1 else 0
  {
  }

  lemma {:induction false} GenerationCountsEnablings(es: seq<Event>)
    ensures Enablings(es) == if Run(es).None? then 0 else Run(es).value.state.generation
  {
    if es != [] {
      GenerationCountsEnablings(es[..|es|-1]);
      EnablingCounts(Run(es[..|es|-1]), es[|es|-1]);
    }
  }

  /** Across re-enablings: no more locks executed than triggered, no more triggered than enabled. */
  lemma {:induction false} LocksCounted(es: seq<Event>)
    requires Run(es).Some?
    ensures Run(es).value.metrics.locksExecuted <= Run(es).value.metrics.locksTriggered <= Enablings(es)
  {
    RunKeepsInv(es);
    GenerationCountsEnablings(es);
  }

  // ------------------------------------------------------------------ what a price does

  /** The stop fires: at a price below the cap, a triggered lock sells exactly when the price has fallen to its
      lock price, and then at that price; otherwise it goes on trailing. */
  lemma {:induction false} TrailSellsIff(es: seq<Event>, p: real)
    requires Run(es).Some? && Run(es).value.state.enabled && Run(es).value.state.status == Triggered
    requires Computable(Run(es).value.state.config, p) && !CapHit(Run(es).value.state.config, p)
    ensures var s, out := Run(es).value.state, Step(Run(es), Price(p));
      && s.lockPrice.Some? && !out.raised && out.slot.Some?
      && (out.request.Some? <==> p <= s.lockPrice.value)
      && (out.request.Some? ==> out.request.value.price == s.lockPrice.value)
      && out.slot.value.state.status == (if p <= s.lockPrice.value then Executing else Triggered)
      && Handled(Run(es).value.metrics, out.slot.value.metrics, false)
  {
    RunKeepsInv(es);
    var c, h := Run(es).value.state.config, Run(es).value.state.highest.value;
    PercentageMeansGain(c, p, c.cap);
    EntryIsWatched(es);
    LockBelowPeak(c, h);
    if p > h {
      HigherPeakHigherLock(h, p, c.trail);
    }
  }

  /** The counters after a price that was handled. */
  ghost predicate Handled(m: Metrics, m': Metrics, triggers: bool) {
    m' == Metrics(m.events + 1, m.decisions + 1, m.locksTriggered + (if triggers then 1 else 0),
                  m.locksExecuted, m.errors)
  }

  lemma LockBelowPeak(c: Config, peak: real)
    requires Acceptable(c) && peak > 0.0
    ensures LockPriceFor(peak, c.trail) < peak
  {
    MulLt(1.0 - c.trail / 100.0, 1.0, peak);
  }

  /** A monitoring lock is triggered by a price exactly when the gain reaches the trigger, and sends nothing. */
  lemma {:induction false} TriggersIff(es: seq<Event>, p: real)
    requires Run(es).Some? && Run(es).value.state.enabled && Run(es).value.state.status == Monitoring
    requires Computable(Run(es).value.state.config, p) && !CapHit(Run(es).value.state.config, p)
    ensures var l, out := Run(es).value, Step(Run(es), Price(p));
      && !out.raised && out.request.None? && out.slot.Some?
      && (if GainReaches(l.state.config, p, l.state.config.trigger)
          then out.slot.value.state.status == Triggered && out.slot.value.state.isTriggered
          else out.slot.value.state == l.state)
      && Handled(l.metrics, out.slot.value.metrics, GainReaches(l.state.config, p, l.state.config.trigger))
  {
    PercentageMeansGain(Run(es).value.state.config, p, Run(es).value.state.config.cap);
    PercentageMeansGain(Run(es).value.state.config, p, Run(es).value.state.config.trigger);
  }

  // ------------------------------------------------------------------ profit cap

  /** The cap promises a sale as soon as the gain reaches it. At a price that reaches the cap, the lock
      sells exactly when it has already been triggered; while still monitoring, the transition table
      rejects the sale, the handler raises, and nothing but the two counters moves. */
  lemma {:induction false} CapSellsIffTriggered(es: seq<Event>, p: real)
    requires Run(es).Some? && Watching(Run(es).value.state)
    requires Computable(Run(es).value.state.config, p) && CapHit(Run(es).value.state.config, p)
    ensures var l, out := Run(es).value, Step(Run(es), Price(p));
      && (out.request.Some? <==> l.state.status == Triggered)
      && (out.request.Some? ==> out.request.value.price == p)
      && (out.raised <==> l.state.status == Monitoring)
      && (l.state.status == Monitoring ==> out.slot.Some? && out.slot.value.state == l.state)
      && out.slot.Some? && Handled(l.metrics, out.slot.value.metrics, false)
  {
    PercentageMeansGain(Run(es).value.state.config, p, Run(es).value.state.config.cap);
  }

  /** A lock whose cap does not exceed its trigger never sells at all, in any run. */
  lemma {:induction false} CapAtMostTriggerNeverSells(es: seq<Event>, e: Event)
    requires Run(es).Some? && 0.0 < Run(es).value.state.config.cap <= Run(es).value.state.config.trigger
    ensures !Trailing(Run(es).value.state) && Step(Run(es), e).request.None?
  {
    RunKeepsInv(es);
  }

  /** A jump past the cap while monitoring: the promised sale does not happen. */
  lemma CapMissedWhileMonitoring()
    ensures var es := [Enable(Config(100.0, 1.0, "long", 10.0, 5.0, 20.0))];
      && Run(es).Some? && CapHit(Run(es).value.state.config, 125.0)
      && Step(Run(es), Price(125.0)).raised && Step(Run(es), Price(125.0)).request.None?
      && Step(Run(es), Price(125.0)).slot.value.state == Run(es).value.state
  {
    var c := Config(100.0, 1.0, "long", 10.0, 5.0, 20.0);
    assert Run([]) == None;
    assert [Enable(c)][..0] == [];
    assert Run([Enable(c)]) == Some(Lock(Fresh(c, 1), Metrics(0, 0, 0, 0, 0)));
    CapSellsIffTriggered([Enable(c)], 125.0);
  }
}
