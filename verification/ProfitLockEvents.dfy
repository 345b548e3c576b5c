/** What each event leaves of a lock, said in terms of its statuses and fields alone. */
module ProfitLockEvents {
  import opened Options
  import opened ProfitLock

  /** The statuses from which each status may be entered. */
  lemma EnteredFrom(from: Status, to: Status)
    ensures to in Transitions(from) <==>
      match to
      case Disabled => from != Disabled
      case Monitoring => from in {Disabled, Locked, Cancelled, Error}
      case Triggered => from in {Monitoring, Triggered, Executing, Error}
      case Executing => from == Triggered
      case Locked => from == Executing
      case Cancelled => from !in {Cancelled, Error}
      case Error => from in {Monitoring, Triggered, Executing}
  {
  }

  /** A record that watches from the entry price of `c`. */
  predicate Fresh(s: State, c: Config) {
    && s.status == Monitoring && s.enabled && !s.isTriggered && !s.isExecuted && s.config == c
    && s.highest == Some(c.entry) && s.lockPrice.None? && s.lockOrderId.None?
  }

  /** Enabling takes a positive trigger and a trail between 0 and 100. It starts a new record, one generation on,
      and keeps the counters. */
  lemma EnableStartsAfresh(slot: Option<Lock>, c: Config)
    ensures var out := Step(slot, Event.Enable(c));
      out.raised <==> c.trigger <= 0.0 || c.trail <= 0.0 || c.trail >= 100.0
    ensures var out := Step(slot, Event.Enable(c)); out.raised ==> out == Outcome(slot, true, None)
    ensures var out := Step(slot, Event.Enable(c));
      !out.raised ==> out.request.None? && out.slot.Some? && Fresh(out.slot.value.state, c)
    ensures var out := Step(slot, Event.Enable(c));
      !out.raised && slot.None? ==>
        out.slot.value.state.generation == 1 && out.slot.value.metrics == Metrics(0, 0, 0, 0, 0)
    ensures var out := Step(slot, Event.Enable(c));
      !out.raised && slot.Some? ==>
        && out.slot.value.state.generation == slot.value.state.generation + 1
        && out.slot.value.metrics == slot.value.metrics
  {
  }

  /** A price that is not watched for changes nothing; one that no profit can be computed for is counted and
      raises. */
  lemma PriceIgnoredOrRefused(slot: Option<Lock>, p: real)
    ensures slot.None? || !slot.value.state.enabled || slot.value.state.status !in {Monitoring, Triggered} ==>
      Step(slot, Price(p)) == Outcome(slot, false, None)
    ensures slot.Some? && slot.value.state.enabled && slot.value.state.status in {Monitoring, Triggered} ==>
      var c, m := slot.value.state.config, slot.value.metrics;
      c.entry <= 0.0 || p <= 0.0 || c.quantity <= 0.0 || (c.side != "long" && c.side != "short") ==>
        Step(slot, Price(p)) == Outcome(Some(Lock(slot.value.state, m.(events := m.events + 1))), true, None)
  {
  }

  /** The awaited order fills or is cancelled; news of any other order is ignored. */
  lemma OrderEnds(slot: Option<Lock>, id: string)
    ensures
      var awaited := slot.Some? && slot.value.state.status == Executing && slot.value.state.lockOrderId == Some(id);
      && (!awaited ==> Step(slot, Filled(id)) == Step(slot, OrderCancelled(id)) == Outcome(slot, false, None))
      && (awaited ==>
            var s, m := slot.value.state, slot.value.metrics;
            && Step(slot, Filled(id)) == Outcome(
                 Some(Lock(s.(status := Locked, isExecuted := true, lockOrderId := None),
                           m.(locksExecuted := m.locksExecuted + 1))), false, None)
            && Step(slot, OrderCancelled(id)) == Outcome(
                 Some(Lock(s.(status := Triggered, lockOrderId := None), m)), false, None))
  {
  }

  /** A placement that works leaves its id with the record that asked for it; one that fails puts the lock into
      ERROR and is counted, while it watches or executes. Either way the caller of a failed one sees the exception. */
  lemma PlacementEnds(slot: Option<Lock>, generation: nat, id: string)
    ensures var placed, failed := Step(slot, Placed(generation, id)), Step(slot, PlaceFailed);
      && !placed.raised && failed.raised && placed.request.None? && failed.request.None?
      && (slot.None? ==> placed.slot.None? && failed.slot.None?)
      && (slot.Some? ==>
            var s, m := slot.value.state, slot.value.metrics;
            && placed.slot == Some(Lock(if s.generation == generation then s.(lockOrderId := Some(id)) else s, m))
            && failed.slot == Some(
                 if s.status in {Monitoring, Triggered, Executing}
                 then Lock(s.(status := Error), m.(errors := m.errors + 1)) else slot.value))
  {
  }

  /** Disabling: a lock that executes with an order has its cancellation asked for first; any other is disabled
      at once, unless it is already. */
  lemma DisableEnds(slot: Option<Lock>, generation: nat, fails: bool)
    ensures slot.None? ==>
      Step(slot, Event.Disable) == Step(slot, CancelReturned(generation, fails)) == Outcome(None, true, None)
    ensures slot.Some? ==>
      var s, m, out := slot.value.state, slot.value.metrics, Step(slot, CancelReturned(generation, fails));
      && out.request.None? && out.slot.Some? && (out.raised <==> s.status == Disabled)
      && out.slot.value.metrics == m.(errors := m.errors + if fails then 1 else 0)
      && out.slot.value.state ==
           (if s.status == Disabled then s
            else if s.generation == generation
            then s.(status := Disabled, enabled := false, isTriggered := false, lockOrderId := None)
            else s.(status := Disabled))
    ensures slot.Some? ==>
      var s := slot.value.state;
      Step(slot, Event.Disable) ==
        if s.status == Executing && s.lockOrderId.Some? then Outcome(slot, false, None)
        else Step(slot, CancelReturned(s.generation, false))
  {
  }

  /** A manual order is taken from a triggered lock only. */
  lemma ManualOrder(slot: Option<Lock>, p: real)
    ensures var out := Step(slot, Execute(p));
      if slot.None? || slot.value.state.status != Triggered then out == Outcome(slot, true, None)
      else
        var s, side := slot.value.state, if slot.value.state.config.side == "long" then "sell" else "buy";
        out == Outcome(Some(Lock(s.(status := Executing), slot.value.metrics)), false,
                       Some(Order(side, s.config.quantity, p, false)))
  {
  }
}
