/** The profit lock: a trailing stop for one position, driven by prices.
    States and transition table (state.py), profit arithmetic (calculator.py), the pure policy
    (policy.py), and the effect of each event on one instance's slot of the store (engine.py). */
module ProfitLock {
  import opened Options

  datatype Status = Disabled | Monitoring | Triggered | Executing | Locked | Cancelled | Error

  function Transitions(from: Status): set<Status> {
    match from
    case Disabled => {Monitoring, Cancelled}
    case Monitoring => {Triggered, Disabled, Cancelled, Error}
    case Triggered => {Triggered, Executing, Disabled, Cancelled, Error}
    case Executing => {Locked, Triggered, Disabled, Cancelled, Error}
    case Locked => {Monitoring, Disabled, Cancelled}
    case Cancelled => {Disabled, Monitoring}
    case Error => {Monitoring, Triggered, Disabled}
  }

  datatype Config = Config(
    entry: real, quantity: real, side: string, trigger: real, trail: real, cap: real)

  /** One record of the store. `generation` is the identity of the record object: `enable` stores a
      new object, and a coroutine that is awaiting the exchange keeps a reference to the old one. */
  datatype State = State(
    status: Status, enabled: bool, config: Config, highest: Option<real>, lockPrice: Option<real>,
    isTriggered: bool, isExecuted: bool, lockOrderId: Option<string>, generation: nat)

  datatype Metrics = Metrics(
    events: nat, decisions: nat, locksTriggered: nat, locksExecuted: nat, errors: nat)

  datatype Lock = Lock(state: State, metrics: Metrics)

  datatype Profit = Profit(floating: real, percentage: real)

  /** `ProfitCalculator.calculate`; None stands for its ValidationError. */
  function Calculate(entry: real, current: real, quantity: real, side: string): Option<Profit> {
    if entry <= 0.0 || current <= 0.0 || quantity <= 0.0 then None
    else if side != "long" && side != "short" then None
    else
      var floating := if side == "long" then (current - entry) * quantity else (entry - current) * quantity;
      var investment := entry * quantity;
      Some(Profit(floating, if investment > 0.0 then floating / investment * 100.0 else 0.0))
  }

  function LockPriceFor(highest: real, trail: real): real { highest * (1.0 - trail / 100.0) }

  datatype Decision = NoAction | TriggerLock(price: real) | UpdateLock(price: real) | ExecuteLock(price: real)

  /** `ProfitLockPolicy.evaluate`. */
  function Evaluate(current: real, profit: Profit, s: State): Decision {
    if !s.enabled || s.status !in {Monitoring, Triggered} then NoAction
    else if s.config.cap > 0.0 && profit.percentage >= s.config.cap then ExecuteLock(current)
    else
      var newHighest := if s.highest.None? || current > s.highest.value then current else s.highest.value;
      if s.status == Monitoring then
        if profit.percentage >= s.config.trigger
        then TriggerLock(LockPriceFor(newHighest, s.config.trail)) else NoAction
      else
        var oldHighest := if s.highest.None? then 0.0 else s.highest.value;
        var newLock := LockPriceFor(newHighest, s.config.trail);
        if newHighest > oldHighest && (s.lockPrice.None? || newLock > s.lockPrice.value) then UpdateLock(newLock)
        else if s.lockPrice.Some? && current <= s.lockPrice.value then ExecuteLock(s.lockPrice.value)
        else NoAction
  }

  /** `max(state.highest_price or current_price, current_price)`: a zero peak counts as absent. */
  function Raised(highest: Option<real>, current: real): real {
    Max(if highest.None? || highest.value == 0.0 then current else highest.value, current)
  }

  datatype Order = Order(side: string, quantity: real, price: real, automatic: bool)

  /** What a handler leaves behind: the slot, whether it raised, and the placement it now awaits. */
  datatype Outcome = Outcome(slot: Option<Lock>, raised: bool, request: Option<Order>)

  datatype Event =
    | Enable(config: Config)
    | Price(price: real)
    | Execute(price: real)
    | Placed(generation: nat, orderId: string)
    | PlaceFailed
    | Filled(orderId: string)
    | OrderCancelled(orderId: string)
    | Disable
    | CancelReturned(generation: nat, fails: bool)

  predicate Acceptable(c: Config) { c.trigger > 0.0 && 0.0 < c.trail < 100.0 }

  function Fresh(c: Config, generation: nat): State {
    State(Monitoring, true, c, Some(c.entry), None, false, false, None, generation)
  }

  function Enabled(slot: Option<Lock>, c: Config): Outcome {
    if !Acceptable(c) then Outcome(slot, true, None)
    else if slot.None? then Outcome(Some(Lock(Fresh(c, 1), Metrics(0, 0, 0, 0, 0))), false, None)
    else Outcome(Some(Lock(Fresh(c, slot.value.state.generation + 1), slot.value.metrics)), false, None)
  }

  /** Up to the exchange await of `_place_lock_order`. */
  function Sending(l: Lock, price: real, automatic: bool): Outcome {
    if Executing !in Transitions(l.state.status) then Outcome(Some(l), true, None)
    else
      var side := if l.state.config.side == "long" then "sell" else "buy";
      Outcome(Some(l.(state := l.state.(status := Executing))), false,
              Some(Order(side, l.state.config.quantity, price, automatic)))
  }

  function Decided(l: Lock, current: real, d: Decision): Outcome {
    match d
    case NoAction => Outcome(Some(l), false, None)
    case TriggerLock(price) =>
      Outcome(Some(l.(state := l.state.(status := Triggered, isTriggered := true,
                                        highest := Some(Raised(l.state.highest, current)), lockPrice := Some(price)),
                      metrics := l.metrics.(locksTriggered := l.metrics.locksTriggered + 1))), false, None)
    case UpdateLock(price) =>
      Outcome(Some(l.(state := l.state.(highest := Some(Raised(l.state.highest, current)), lockPrice := Some(price)))),
              false, None)
    case ExecuteLock(price) => Sending(l, price, true)
  }

  predicate Watching(s: State) { s.enabled && s.status in {Monitoring, Triggered} }

  function Priced(slot: Option<Lock>, current: real): Outcome {
    if slot.None? || !Watching(slot.value.state) then Outcome(slot, false, None)
    else
      var s, m := slot.value.state, slot.value.metrics;
      var profit := Calculate(s.config.entry, current, s.config.quantity, s.config.side);
      if profit.None? then Outcome(Some(Lock(s, m.(events := m.events + 1))), true, None)
      else Decided(Lock(s, m.(events := m.events + 1, decisions := m.decisions + 1)), current,
                   Evaluate(current, profit.value, s))
  }

  function WasPlaced(slot: Option<Lock>, generation: nat, orderId: string): Outcome {
    if slot.Some? && slot.value.state.generation == generation
    then Outcome(Some(slot.value.(state := slot.value.state.(lockOrderId := Some(orderId)))), false, None)
    else Outcome(slot, false, None)
  }

  function WasNotPlaced(slot: Option<Lock>): Outcome {
    if slot.None? || Error !in Transitions(slot.value.state.status) then Outcome(slot, true, None)
    else
      var l := slot.value;
      Outcome(Some(Lock(l.state.(status := Error), l.metrics.(errors := l.metrics.errors + 1))), true, None)
  }

  predicate AwaitsFill(slot: Option<Lock>, orderId: string) {
    slot.Some? && slot.value.state.status == Executing && slot.value.state.lockOrderId == Some(orderId)
  }

  function WasFilled(slot: Option<Lock>, orderId: string): Outcome {
    if !AwaitsFill(slot, orderId) then Outcome(slot, false, None)
    else
      var l := slot.value;
      Outcome(Some(Lock(l.state.(status := Locked, isExecuted := true, lockOrderId := None),
                        l.metrics.(locksExecuted := l.metrics.locksExecuted + 1))), false, None)
  }

  function WasCancelled(slot: Option<Lock>, orderId: string): Outcome {
    if !AwaitsFill(slot, orderId) then Outcome(slot, false, None)
    else Outcome(Some(slot.value.(state := slot.value.state.(status := Triggered, lockOrderId := None))), false, None)
  }

  predicate HasLockOrder(slot: Option<Lock>) {
    slot.Some? && slot.value.state.status == Executing && slot.value.state.lockOrderId.Some?
  }

  /** The end of `disable`: `held` is the record it started with, which a re-enable may have replaced while
      the cancellation was awaited. The status is written to the store's record, the flags to the held one. */
  function Unwatched(slot: Option<Lock>, held: nat, cancelFails: bool): Outcome {
    if slot.None? then Outcome(slot, true, None)
    else
      var s, m := slot.value.state, slot.value.metrics;
      var m' := if cancelFails then m.(errors := m.errors + 1) else m;
      if Disabled !in Transitions(s.status) then Outcome(Some(Lock(s, m')), true, None)
      else
        var s' := s.(status := Disabled);
        Outcome(Some(Lock(
          if s.generation == held then s'.(enabled := false, isTriggered := false, lockOrderId := None)
            else s', m')), false, None)
  }

  /** `disable`, up to the await of the cancellation if there is an order to cancel. */
  function WasDisabled(slot: Option<Lock>): Outcome {
    if slot.None? then Outcome(slot, true, None)
    else if HasLockOrder(slot) then Outcome(slot, false, None)
    else Unwatched(slot, slot.value.state.generation, false)
  }

  function Step(slot: Option<Lock>, e: Event): Outcome {
    match e
    case Enable(c) => Enabled(slot, c)
    case Price(p) => Priced(slot, p)
    case Execute(p) => if slot.None? then Outcome(slot, true, None) else Sending(slot.value, p, false)
    case Placed(g, id) => WasPlaced(slot, g, id)
    case PlaceFailed => WasNotPlaced(slot)
    case Filled(id) => WasFilled(slot, id)
    case OrderCancelled(id) => WasCancelled(slot, id)
    case Disable => WasDisabled(slot)
    case CancelReturned(g, fails) => Unwatched(slot, g, fails)
  }
}
