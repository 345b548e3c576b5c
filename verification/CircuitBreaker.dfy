/** The daily drop circuit breaker (circuit_breaker.py) and its part in a price update (engine.py). */
module CircuitBreaker {
  import opened Options
  import opened RealMath

  datatype Mode = TaConfirm | WidenStep | TrailingBuy

  datatype Breaker = Breaker(
    threshold: real, mode: Mode, recovery: real, widen: real, dayOpen: Option<real>,
    triggered: bool, triggerDate: Option<int>, triggerPrice: Option<real>, bottom: Option<real>)

  function Rolled(b: Breaker, price: real, today: int): Breaker {
    if b.triggerDate == Some(today) then b
    else if b.triggerDate.None? then
      b.(triggerDate := Some(today), dayOpen := if b.dayOpen.None? then Some(price) else b.dayOpen)
    else b.(triggered := false, triggerDate := Some(today), dayOpen := Some(price), bottom := None)
  }

  function DropPercent(b: Breaker, price: real): real {
    if b.dayOpen.None? || b.dayOpen.value <= 0.0 then 0.0
    else (price - b.dayOpen.value) / b.dayOpen.value * 100.0
  }

  predicate ShouldTrigger(b: Breaker, price: real) { !b.triggered && DropPercent(b, price) <= -b.threshold }

  function Triggered(b: Breaker, price: real): Breaker {
    b.(triggered := true, triggerPrice := Some(price), bottom := Some(price))
  }

  function Bottomed(b: Breaker, price: real): Breaker {
    if b.triggered && (b.bottom.None? || price < b.bottom.value) then b.(bottom := Some(price)) else b
  }

  function RecoveryPrice(recovery: real, low: real): real { low * (1.0 + recovery / 100.0) }

  predicate ShouldResume(b: Breaker, price: real) {
    b.triggered && b.bottom.Some? && b.bottom.value > 0.0 && price >= RecoveryPrice(b.recovery, b.bottom.value)
  }

  /** `CircuitBreakerState`, updated in place. */
  class CircuitBreakerState {
    const threshold: real
    const mode: Mode
    const recovery: real
    const widen: real
    var dayOpen: Option<real>
    var triggered: bool
    var triggerDate: Option<int>
    var triggerPrice: Option<real>
    var bottom: Option<real>

    function View(): Breaker
      reads this
    {
      Breaker(threshold, mode, recovery, widen, dayOpen, triggered, triggerDate, triggerPrice, bottom)
    }

    constructor (threshold: real, mode: Mode, recovery: real, widen: real, dayOpen: Option<real>)
      ensures View() == Breaker(threshold, mode, recovery, widen, dayOpen, false, None, None, None)
    {
      this.threshold, this.mode, this.recovery, this.widen, this.dayOpen := threshold, mode, recovery, widen, dayOpen;
      triggered, triggerDate, triggerPrice, bottom := false, None, None, None;
    }

    method CheckNewDay(price: real, today: int)
      modifies this
      ensures View() == Rolled(old(View()), price, today)
    {
      if triggerDate == Some(today) {
        return;
      }
      if triggerDate.None? {
        triggerDate := Some(today);
        if dayOpen.None? {
          dayOpen := Some(price);
        }
        return;
      }
      triggered := false;
      triggerDate := Some(today);
      dayOpen := Some(price);
      bottom := None;
    }

    method Trigger(price: real)
      modifies this
      ensures View() == Triggered(old(View()), price)
    {
      triggered := true;
      triggerPrice := Some(price);
      bottom := Some(price);
    }

    method UpdateBottom(price: real)
      modifies this
      ensures View() == Bottomed(old(View()), price)
    {
      if !triggered {
        return;
      }
      if bottom.None? || price < bottom.value {
        bottom := Some(price);
      }
    }

    method Reset()
      modifies this
      ensures View() == old(View()).(triggered := false)
    {
      triggered := false;
    }
  }

  /** What a price does to the breaker, whether it trips, and whether buys may pass. `reversal` is the
      verdict of the 15m indicators, None without candles; `gate` that of the ordinary TA gate. */
  datatype Tick = Tick(breaker: Breaker, tripped: bool, passed: bool)

  function AfterTrip(b: Breaker, price: real, today: int): Breaker {
    var r := Rolled(b, price, today);
    if ShouldTrigger(r, price) then Triggered(r, price) else r
  }

  /** The resume logic of the breaker's mode. */
  function Resumed(b: Breaker, price: real, reversal: Option<bool>, gate: bool): (Breaker, bool) {
    if !b.triggered then (b, gate)
    else
      var low := Bottomed(b, price);
      var reversed := reversal == Some(true);
      match b.mode
      case WidenStep => (if reversed then low.(triggered := false) else low, true)
      case TrailingBuy => if ShouldResume(low, price) then (low.(triggered := false), true) else (low, false)
      case TaConfirm => if reversed then (low.(triggered := false), true) else (low, false)
  }

  function Ticked(b: Breaker, price: real, today: int, reversal: Option<bool>, gate: bool): Tick {
    var after := AfterTrip(b, price, today);
    var (resumed, passed) := Resumed(after, price, reversal, gate);
    Tick(resumed, ShouldTrigger(Rolled(b, price, today), price), passed)
  }

  // ------------------------------------------------------------------ properties

  /** What lets buys pass a triggered breaker, and what clears it: every buy passes a widened step, which the
      indicators clear; the indicators pass and clear a breaker that waits for them, whatever the price; the price
      alone passes and clears a trailing one. */
  lemma ModesResume(b: Breaker, price: real, reversal: Option<bool>, gate: bool)
    ensures !b.triggered ==> Resumed(b, price, reversal, gate) == (b, gate)
    ensures b.triggered ==>
      var (after, passed) := Resumed(b, price, reversal, gate);
      var low := if b.bottom.None? || price < b.bottom.value then price else b.bottom.value;
      && after == b.(bottom := Some(low), triggered := after.triggered)
      && match b.mode
         case WidenStep => passed && (after.triggered <==> reversal != Some(true))
         case TaConfirm => passed == !after.triggered && (passed <==> reversal == Some(true))
         case TrailingBuy =>
           passed == !after.triggered && (passed <==> low > 0.0 && price >= low * (1.0 + b.recovery / 100.0))
  {
  }

  /** The drop reaches the threshold exactly at the price that lies that far below the day's open. */
  lemma TripsAtThreshold(b: Breaker, price: real)
    requires b.dayOpen.Some? && b.dayOpen.value > 0.0 && !b.triggered
    ensures ShouldTrigger(b, price) <==> price <= b.dayOpen.value * (1.0 - b.threshold / 100.0)
  {
    var o := b.dayOpen.value;
    var x := (price - o) / o;
    assert x * o == price - o;
    if x <= -b.threshold / 100.0 {
      MulLe(x, -b.threshold / 100.0, o);
    } else {
      MulLt(-b.threshold / 100.0, x, o);
    }
    assert -b.threshold / 100.0 * o == -(o * (b.threshold / 100.0));
  }

  /** A price has recovered exactly if it lies the configured percentage above the low. */
  lemma RecoveryIsPercent(recovery: real, low: real, price: real)
    requires low > 0.0
    ensures price >= RecoveryPrice(recovery, low) <==> (price - low) / low * 100.0 >= recovery
  {
    var x := (price - low) / low;
    assert x * low == price - low;
    assert RecoveryPrice(recovery, low) - low == recovery / 100.0 * low;
    if x >= recovery / 100.0 {
      MulLe(recovery / 100.0, x, low);
    } else {
      MulLt(x, recovery / 100.0, low);
    }
  }

  /** A triggered breaker was tripped at least the threshold below an actual open of the day, and its
      bottom is no higher than that. */
  ghost predicate TrippedBelowOpen(b: Breaker) {
    b.triggered ==>
      && b.dayOpen.Some? && b.dayOpen.value > 0.0 && b.triggerPrice.Some? && b.bottom.Some?
      && b.bottom.value <= b.triggerPrice.value <= b.dayOpen.value * (1.0 - b.threshold / 100.0)
  }

  lemma TickStaysBelowOpen(b: Breaker, price: real, today: int, reversal: Option<bool>, gate: bool)
    requires TrippedBelowOpen(b) && b.threshold > 0.0
    ensures TrippedBelowOpen(Ticked(b, price, today, reversal, gate).breaker)
  {
    var r := Rolled(b, price, today);
    if ShouldTrigger(r, price) {
      TripsAtThreshold(r, price);
    }
  }

  /** A price update, with the day and the verdicts of the indicators it comes with. */
  datatype Quote = Quote(price: real, today: int, reversal: Option<bool>, gate: bool)

  function TickOf(b: Breaker, q: Quote): Tick { Ticked(b, q.price, q.today, q.reversal, q.gate) }

  function After(b: Breaker, qs: seq<Quote>): Breaker {
    if qs == [] then b else TickOf(After(b, qs[..|qs|-1]), qs[|qs|-1]).breaker
  }

  lemma TickKeepsThreshold(b: Breaker, q: Quote)
    ensures TickOf(b, q).breaker.threshold == b.threshold
  {
  }

  lemma {:induction false} ThresholdStands(b: Breaker, qs: seq<Quote>)
    ensures After(b, qs).threshold == b.threshold
  {
    if qs != [] {
      ThresholdStands(b, qs[..|qs|-1]);
      TickKeepsThreshold(After(b, qs[..|qs|-1]), qs[|qs|-1]);
    }
  }

  /** So in every run of a breaker that starts untriggered, over any days and verdicts: while it is
      triggered, its trigger price lies at least the threshold below the day's open. */
  lemma {:induction false} AlwaysTrippedBelowOpen(b: Breaker, qs: seq<Quote>)
    requires !b.triggered && b.threshold > 0.0
    ensures TrippedBelowOpen(After(b, qs))
  {
    if qs != [] {
      var before, q := After(b, qs[..|qs|-1]), qs[|qs|-1];
      AlwaysTrippedBelowOpen(b, qs[..|qs|-1]);
      ThresholdStands(b, qs[..|qs|-1]);
      TickStaysBelowOpen(before, q.price, q.today, q.reversal, q.gate);
    }
  }

  /** The lowest of a price and those that followed it. */
  function Low(first: real, ps: seq<real>): real {
    if ps == [] then first else Min(Low(first, ps[..|ps|-1]), ps[|ps|-1])
  }

  lemma {:induction false} LowIsLeast(first: real, ps: seq<real>)
    ensures Low(first, ps) in [first] + ps && Low(first, ps) <= first && forall p <- ps :: Low(first, ps) <= p
  {
    if ps != [] {
      LowIsLeast(first, ps[..|ps|-1]);
      assert ps == ps[..|ps|-1] + [ps[|ps|-1]];
    }
  }

  function Prices(qs: seq<Quote>): (ps: seq<real>)
    ensures |ps| == |qs| && forall i | 0 <= i < |qs| :: ps[i] == qs[i].price
  {
    seq(|qs|, i requires 0 <= i < |qs| => qs[i].price)
  }

  /** Updates of one day, at positive prices and with any verdicts. */
  ghost predicate OnDay(qs: seq<Quote>, today: int) { forall q <- qs :: q.today == today && q.price > 0.0 }

  /** No price so far has recovered from the lowest price up to and including it. */
  ghost predicate NotRecovered(b: Breaker, first: real, ps: seq<real>) {
    ps == [] || (NotRecovered(b, first, ps[..|ps|-1]) && ps[|ps|-1] < RecoveryPrice(b.recovery, Low(first, ps)))
  }

  ghost predicate JustTripped(b: Breaker, price: real, today: int) {
    && b.mode == TrailingBuy && b.triggered && b.triggerDate == Some(today)
    && b.triggerPrice == Some(price) && b.bottom == Some(price)
  }

  /** A price that trips a trailing breaker never clears it in the same step. */
  lemma TrippingStepHolds(b: Breaker, price: real, today: int, reversal: Option<bool>, gate: bool)
    requires b.mode == TrailingBuy && b.recovery > 0.0 && price > 0.0
    requires Ticked(b, price, today, reversal, gate).tripped
    ensures var t := Ticked(b, price, today, reversal, gate); JustTripped(t.breaker, price, today) && !t.passed
  {
    MulLt(0.0, b.recovery / 100.0, price);
  }

  lemma TrailingTick(b: Breaker, p: real, today: int, reversal: Option<bool>, gate: bool)
    requires b.mode == TrailingBuy && b.triggered && b.triggerDate == Some(today)
    requires b.bottom.Some? && b.bottom.value > 0.0 && p > 0.0
    ensures var t, low := Ticked(b, p, today, reversal, gate), Min(b.bottom.value, p);
      && t.breaker == b.(bottom := Some(low), triggered := p < RecoveryPrice(b.recovery, low))
      && (t.passed <==> !t.breaker.triggered) && !t.tripped
  {
  }

  /** While no price has recovered, the breaker stays triggered, and its bottom is the lowest of the trigger
      price and the prices since, whatever the indicators say. */
  lemma {:induction false} HoldsUntilRecovery(b: Breaker, first: real, today: int, qs: seq<Quote>)
    requires JustTripped(b, first, today) && first > 0.0 && OnDay(qs, today) && NotRecovered(b, first, Prices(qs))
    ensures After(b, qs) == b.(bottom := Some(Low(first, Prices(qs)))) && Low(first, Prices(qs)) > 0.0
  {
    if qs != [] {
      var init, last := qs[..|qs|-1], qs[|qs|-1];
      assert last in qs && forall q <- init :: q in qs;
      assert Prices(qs)[..|qs|-1] == Prices(init);
      HoldsUntilRecovery(b, first, today, init);
      TrailingTick(After(b, init), last.price, today, last.reversal, last.gate);
      assert Low(first, Prices(qs)) == Min(Low(first, Prices(init)), last.price);
    }
  }

  /** The breaker clears, and lets buys pass again, exactly at the first price that has recovered by the
      configured percentage from the lowest price since the trip, the trigger price included. */
  lemma {:induction false} ClearsAtFirstRecovery(b: Breaker, first: real, today: int, qs: seq<Quote>, q: Quote)
    requires JustTripped(b, first, today) && first > 0.0 && OnDay(qs + [q], today)
    requires NotRecovered(b, first, Prices(qs))
    ensures
      var t := TickOf(After(b, qs), q);
      var recovered := q.price >= RecoveryPrice(b.recovery, Low(first, Prices(qs + [q])));
      && (t.breaker.triggered <==> !recovered) && (t.passed <==> recovered) && !t.tripped
      && t.breaker.triggerPrice == Some(first)
  {
    assert q in qs + [q] && forall r <- qs :: r in qs + [q];
    HoldsUntilRecovery(b, first, today, qs);
    assert Prices(qs + [q])[..|qs|] == Prices(qs);
    TrailingTick(After(b, qs), q.price, today, q.reversal, q.gate);
  }

  /** A breaker that is triggered when the day changes is cleared by the first price of the new day,
      unless that price trips it anew; with a positive threshold it cannot. */
  lemma NewDayClears(b: Breaker, price: real, today: int, reversal: Option<bool>, gate: bool)
    requires b.triggerDate.Some? && b.triggerDate.value != today && b.threshold > 0.0
    ensures var t := Ticked(b, price, today, reversal, gate);
      !t.breaker.triggered && !t.tripped && t.passed == gate && t.breaker.dayOpen == Some(price)
        && t.breaker.bottom.None? && t.breaker.triggerDate == Some(today)
  {
    var r := Rolled(b, price, today);
    assert DropPercent(r, price) == 0.0;
  }
}
