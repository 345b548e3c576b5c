/** `ExecutionEngine`, updated in place. Each operation is two methods, before and after its await;
    together they are proved to be the steps of the protocol in Execution. */
module ExecutionEngines {
  import opened Options
  import opened Orders
  import opened Execution

  /** With `results` collected so far, `rest` is what remains of `all`. */
  ghost predicate RestOf(all: SweepDone, results: seq<Result>, rest: SweepDone) {
    all.engine == rest.engine && all.raised == rest.raised && all.results == results + rest.results
  }

  class ExecutionEngine {
    const tracker: OrderTracker
    var adapters: set<string>
    /** The coroutines that await the exchange, and the requests handed to the executor. */
    var calls: seq<Call>
    var executed: seq<string>

    ghost function View(): Engine reads this, tracker { Engine(tracker.View(), adapters, calls, executed) }

    ghost predicate Good() reads this, tracker { Valid(View()) }

    constructor (tracker: OrderTracker, adapters: set<string>)
      requires tracker.Valid()
      ensures Good() && this.tracker == tracker && View() == Engine(tracker.View(), adapters, [], [])
    {
      this.tracker, this.adapters, calls, executed := tracker, adapters, [], [];
    }

    method PlaceOrder(request: string, account: string, valid: bool, localId: string) returns (reply: Reply)
      requires Good()
      modifies this, tracker
      ensures Good() && Effect(View(), reply) == PlaceBegins(old(View()), request, account, valid, localId)
    {
      var cached := tracker.GetByRequestId(request);
      if cached.Some? {
        return Returned(tracker.records[cached.value].result);
      }
      if account !in adapters || !valid {
        return Raised;
      }
      var h := tracker.Track(request, account, Result(localId, "", "pending"), Pending);
      var _ := tracker.Transition(h, Submitting);
      executed := executed + [request];
      calls := calls + [Placing(h, request, account)];
      return Awaiting;
    }

    /** The `except` block of `place_order`. */
    method FailPlacement(h: nat, account: string)
      requires Good() && h < |tracker.records|
      modifies tracker
      ensures Good() && tracker.View() == PlaceFails(old(tracker.View()), h, account)
    {
      var ok := tracker.Transition(h, Failed);
      if ok {
        var stored := tracker.records[h].result;
        var _ := tracker.Update(account, stored.orderId, stored.(status := "rejected"), Some(Failed), false);
      }
    }

    method FinishPlacement(h: nat, account: string, a: Answer) returns (reply: Reply)
      requires Good() && h < |tracker.records|
      modifies tracker
      ensures Good() && Effect(View(), reply) == PlaceEnds(old(View()), h, account, a)
    {
      if !a.Ok? {
        FailPlacement(h, account);
        return Raised;
      }
      var status := MapExchangeStatus(a.result.status);
      var oldId := tracker.records[h].result.orderId;
      if a.result.orderId != oldId {
        var _ := tracker.ReKey(account, oldId, a.result.orderId);
      }
      var ok := tracker.Transition(h, status);
      if !ok {
        FailPlacement(h, account);
        return Raised;
      }
      var _ := tracker.Update(account, a.result.orderId, a.result, Some(status), false);
      return Returned(a.result);
    }

    method CancelOrder(account: string, orderId: string) returns (reply: Reply)
      requires Good()
      modifies this, tracker
      ensures Good() && Effect(View(), reply) == CancelBegins(old(View()), account, orderId)
    {
      var found := tracker.Get(account, orderId);
      if found.None? {
        return Raised;
      }
      var h := found.value;
      if tracker.records[h].status in {Filled, Cancelled, Rejected} {
        return Returned(tracker.records[h].result);
      }
      if account !in adapters {
        return Raised;
      }
      var ok := tracker.Transition(h, Cancelling);
      if !ok {
        return Raised;
      }
      calls := calls + [CancelSent(h, account, orderId)];
      return Awaiting;
    }

    method FinishCancel(h: nat, account: string, orderId: string, a: Answer) returns (reply: Reply)
      requires Good() && h < |tracker.records|
      modifies this, tracker
      ensures Good() && Effect(View(), reply) == CancelEnds(old(View()), h, account, orderId, a)
    {
      match a
      case Refused =>
        calls := calls + [Querying(h, account, orderId)];
        return Awaiting;
      case Gone => return Raised;
      case Ok(_) =>
        var ok := tracker.Transition(h, Cancelled);
        if !ok {
          return Raised;
        }
        var result := tracker.records[h].result.(status := "cancelled");
        var _ := tracker.Update(account, orderId, result, Some(Cancelled), false);
        return Returned(result);
    }

    method SyncOrder(account: string, orderId: string) returns (reply: Reply)
      requires Good()
      modifies this
      ensures Good() && Effect(View(), reply) == SyncBegins(old(View()), account, orderId)
    {
      var found := tracker.Get(account, orderId);
      if found.None? || account !in adapters {
        return Raised;
      }
      calls := calls + [Querying(found.value, account, orderId)];
      return Awaiting;
    }

    method FinishQuery(h: nat, account: string, orderId: string, a: Answer) returns (reply: Reply)
      requires Good() && h < |tracker.records|
      modifies tracker
      ensures Good() && Effect(View(), reply) == QueryEnds(old(View()), h, account, orderId, a)
    {
      if !a.Ok? {
        return Raised;
      }
      var status := MapExchangeStatus(a.result.status);
      var ok := tracker.Transition(h, status);
      if !ok {
        return Raised;
      }
      var _ := tracker.Update(account, orderId, a.result, Some(status), false);
      return Returned(a.result);
    }

    /** One round of `cancel_all_orders`, once the exchange has cancelled the order. */
    method SweepOne(account: string, orderId: string) returns (reply: Reply)
      requires Good()
      modifies tracker
      ensures Good() && Effect(View(), reply) == Swept(old(View()), account, orderId)
    {
      var found := tracker.Get(account, orderId);
      if found.Some? {
        var ok := tracker.Transition(found.value, Cancelled);
        if !ok {
          return Raised;
        }
      }
      return Returned(Result(orderId, orderId, "cancelled"));
    }

    /** `cancel_all_orders` without anything happening at its awaits: `open` is None if the listing failed, and
        `works` says which cancellations the exchange carries out. */
    method CancelAllOrders(account: string, open: Option<seq<Result>>, works: seq<bool>)
      returns (raised: bool, results: seq<Result>)
      requires Good()
      modifies tracker
      ensures Good()
      ensures
        if account !in adapters || open.None? then raised && results == [] && View() == old(View())
        else
          var d := SweptAll(old(View()), account, open.value, works, 0);
          View() == d.engine && raised == d.raised && (!raised ==> results == d.results)
    {
      results := [];
      if account !in adapters || open.None? {
        return true, [];
      }
      ghost var all := SweptAll(View(), account, open.value, works, 0);
      for k := 0 to |open.value|
        invariant Good() && RestOf(all, results, SweptAll(View(), account, open.value, works, k))
      {
        if Works(works, k) {
          var reply := SweepOne(account, open.value[k].orderId);
          if reply.Raised? {
            return true, results;
          }
          results := results + [open.value[k]];
        }
      }
      return false, results;
    }

    /** The exchange answers one of the waiting coroutines, whichever it is. */
    method Resume(i: nat, a: Answer) returns (reply: Reply)
      requires Good() && i < |calls|
      modifies this, tracker
      ensures Good() && Effect(View(), reply) == Step(old(View()), Event.Resume(i, a))
    {
      var c := calls[i];
      calls := Without(calls, i);
      match c
      case Placing(h, _, account) => reply := FinishPlacement(h, account, a);
      case CancelSent(h, account, orderId) => reply := FinishCancel(h, account, orderId, a);
      case Querying(h, account, orderId) => reply := FinishQuery(h, account, orderId, a);
    }
  }
}
