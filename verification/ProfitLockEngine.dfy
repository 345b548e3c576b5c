/** `ProfitLockEngine` and its store, updated in place. Every handler is proved to give its instance's
    slot exactly the outcome that ProfitLock.Step describes, and to leave every other instance alone. */
module ProfitLockEngines {
  import opened Options
  import opened ProfitLock

  class ProfitLockEngine {
    var states: map<string, State>
    var metrics: map<string, Metrics>

    ghost predicate Valid() reads this { states.Keys == metrics.Keys }

    ghost function Slot(id: string): (slot: Option<Lock>)
      requires Valid()
      reads this
    {
      if id in states then Some(Lock(states[id], metrics[id])) else None
    }

    /** `id` now holds `out.slot`; no other instance was touched. */
    twostate predicate Became(id: string, out: Outcome)
      requires old(Valid())
      reads this
    {
      Valid() && Slot(id) == out.slot && forall other :: other != id ==> Slot(other) == old(Slot(other))
    }

    constructor ()
      ensures Valid() && forall id :: Slot(id) == None
    {
      states, metrics := map[], map[];
    }

    /** `ProfitLockStore.transition`: false stands for InvalidStateTransition. */
    method Transition(id: string, to: Status) returns (ok: bool)
      requires Valid() && id in states
      modifies this`states
      ensures ok == (to in Transitions(old(states[id].status)))
      ensures states == if ok then old(states)[id := old(states[id]).(status := to)] else old(states)
    {
      ok := to in Transitions(states[id].status);
      if ok {
        states := states[id := states[id].(status := to)];
      }
    }

    method Enable(id: string, c: Config) returns (raised: bool)
      requires Valid()
      modifies this
      ensures Became(id, Step(old(Slot(id)), Event.Enable(c)))
      ensures raised == Step(old(Slot(id)), Event.Enable(c)).raised
    {
      if c.trigger <= 0.0 || c.trail <= 0.0 || c.trail >= 100.0 {
        return true;
      }
      var generation := if id in states then states[id].generation + 1 else 1;
      states := states[id := State(Monitoring, true, c, Some(c.entry), None, false, false, None, generation)];
      if id !in metrics {
        metrics := metrics[id := Metrics(0, 0, 0, 0, 0)];
      }
      return false;
    }

    /** `_handle_trigger`, reached only from a monitoring lock. */
    method HandleTrigger(id: string, current: real, lockPrice: real)
      requires Valid() && id in states && states[id].status == Monitoring
      modifies this
      ensures Became(id, Decided(old(Slot(id)).value, current, TriggerLock(lockPrice)))
    {
      var _ := Transition(id, Triggered);
      var s := states[id];
      states := states[id := s.(isTriggered := true, highest := Some(Raised(s.highest, current)),
                                lockPrice := Some(lockPrice))];
      metrics := metrics[id := metrics[id].(locksTriggered := metrics[id].locksTriggered + 1)];
    }

    /** `_place_lock_order` up to its await: the request is what the coroutine now waits for. */
    method PlaceLockOrder(id: string, lockPrice: real, automatic: bool) returns (raised: bool, request: Option<Order>)
      requires Valid() && id in states
      modifies this
      ensures var out := Sending(old(Slot(id)).value, lockPrice, automatic);
        Became(id, out) && raised == out.raised && request == out.request
    {
      var ok := Transition(id, Executing);
      if !ok {
        return true, None;
      }
      var s := states[id];
      var side := if s.config.side == "long" then "sell" else "buy";
      return false, Some(Order(side, s.config.quantity, lockPrice, automatic));
    }

    method OnPriceUpdate(id: string, current: real) returns (raised: bool, request: Option<Order>)
      requires Valid()
      modifies this
      ensures var out := Step(old(Slot(id)), Price(current));
        Became(id, out) && raised == out.raised && request == out.request
    {
      if id !in states || !states[id].enabled || states[id].status !in {Monitoring, Triggered} {
        return false, None;
      }
      metrics := metrics[id := metrics[id].(events := metrics[id].events + 1)];
      var s := states[id];
      var profit := Calculate(s.config.entry, current, s.config.quantity, s.config.side);
      if profit.None? {
        return true, None;
      }
      var decision := Evaluate(current, profit.value, s);
      metrics := metrics[id := metrics[id].(decisions := metrics[id].decisions + 1)];
      raised, request := false, None;
      match decision
      case NoAction =>
      case TriggerLock(price) => HandleTrigger(id, current, price);
      case UpdateLock(price) =>
        states := states[id := s.(highest := Some(Raised(s.highest, current)), lockPrice := Some(price))];
      case ExecuteLock(price) => raised, request := PlaceLockOrder(id, price, true);
    }

    /** `execute_lock`: the manual order. */
    method ExecuteNow(id: string, lockPrice: real) returns (raised: bool, request: Option<Order>)
      requires Valid()
      modifies this
      ensures var out := Step(old(Slot(id)), Execute(lockPrice));
        Became(id, out) && raised == out.raised && request == out.request
    {
      if id !in states {
        return true, None;
      }
      raised, request := PlaceLockOrder(id, lockPrice, false);
    }

    /** The rest of `_place_lock_order` when the exchange answered: `held` is the record object that
        the coroutine kept, which a re-enable may have replaced in the store. */
    method OrderWasPlaced(id: string, held: nat, orderId: string)
      requires Valid()
      modifies this
      ensures Became(id, Step(old(Slot(id)), Placed(held, orderId)))
    {
      if id in states && states[id].generation == held {
        states := states[id := states[id].(lockOrderId := Some(orderId))];
      }
    }

    /** The rest of `_place_lock_order` when placing failed; it always raises. */
    method OrderWasNotPlaced(id: string)
      requires Valid()
      modifies this
      ensures Became(id, Step(old(Slot(id)), PlaceFailed))
    {
      if id !in states {
        return;
      }
      var ok := Transition(id, Error);
      if ok {
        metrics := metrics[id := metrics[id].(errors := metrics[id].errors + 1)];
      }
    }

    method OnOrderFilled(id: string, orderId: string)
      requires Valid()
      modifies this
      ensures Became(id, Step(old(Slot(id)), Filled(orderId)))
    {
      if id !in states || states[id].lockOrderId != Some(orderId) || states[id].status != Executing {
        return;
      }
      var _ := Transition(id, Locked);
      states := states[id := states[id].(isExecuted := true, lockOrderId := None)];
      metrics := metrics[id := metrics[id].(locksExecuted := metrics[id].locksExecuted + 1)];
    }

    method OnOrderCancelled(id: string, orderId: string)
      requires Valid()
      modifies this
      ensures Became(id, Step(old(Slot(id)), OrderCancelled(orderId)))
    {
      if id !in states || states[id].lockOrderId != Some(orderId) || states[id].status != Executing {
        return;
      }
      var _ := Transition(id, Triggered);
      states := states[id := states[id].(lockOrderId := None)];
    }

    /** `disable` up to its await: the order whose cancellation it now waits for, if there is one. */
    method Disable(id: string) returns (raised: bool, cancels: Option<string>)
      requires Valid()
      modifies this
      ensures Became(id, Step(old(Slot(id)), Event.Disable)) && raised == Step(old(Slot(id)), Event.Disable).raised
      ensures cancels == if HasLockOrder(old(Slot(id))) then old(states[id].lockOrderId) else None
    {
      if id !in states {
        return true, None;
      }
      if states[id].status == Executing && states[id].lockOrderId.Some? {
        return false, states[id].lockOrderId;
      }
      raised := FinishDisable(id, states[id].generation, false);
      cancels := None;
    }

    /** The rest of `disable`, with the record it started with and whether the cancellation failed. */
    method FinishDisable(id: string, held: nat, cancelFails: bool) returns (raised: bool)
      requires Valid()
      modifies this
      ensures Became(id, Step(old(Slot(id)), CancelReturned(held, cancelFails)))
      ensures raised == Step(old(Slot(id)), CancelReturned(held, cancelFails)).raised
    {
      if id !in states {
        return true;
      }
      if cancelFails {
        metrics := metrics[id := metrics[id].(errors := metrics[id].errors + 1)];
      }
      var ok := Transition(id, Disabled);
      if !ok {
        return true;
      }
      if states[id].generation == held {
        states := states[id := states[id].(enabled := false, isTriggered := false, lockOrderId := None)];
      }
      return false;
    }
  }
}
