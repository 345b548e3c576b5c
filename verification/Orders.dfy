/** Orders as the execution engine keeps them: the lifecycle table (order_state.py), the records
    (models.py) and the tracker's two dictionaries (tracker.py). */
module Orders {
  import opened Options

  datatype Status = Pending | Submitting | Open | PartiallyFilled | Filled | Cancelling | Cancelled | Rejected | Failed

  function Transitions(from: Status): set<Status> {
    match from
    case Pending => {Submitting}
    case Submitting => {Open, PartiallyFilled, Filled, Rejected, Failed}
    case Open => {PartiallyFilled, Filled, Cancelling, Cancelled}
    case PartiallyFilled => {PartiallyFilled, Filled, Cancelling, Cancelled}
    case Cancelling => {Cancelled, Filled, PartiallyFilled}
    case Failed => {Submitting}
    case Filled => {}
    case Cancelled => {}
    case Rejected => {}
  }

  predicate Terminal(s: Status) { s in {Filled, Cancelled, Rejected} }

  lemma TerminalHasNoWayOut(s: Status)
    ensures Terminal(s) <==> Transitions(s) == {}
  {
    assert s == Failed ==> Submitting in Transitions(s);
    assert s == Cancelling ==> Cancelled in Transitions(s);
    assert s in {Open, PartiallyFilled, Submitting} ==> Filled in Transitions(s);
    assert s == Pending ==> Submitting in Transitions(s);
  }

  /** `map_exchange_status` on the lower-case text of a status. */
  function MapExchangeStatus(text: string): Status {
    if text == "pending" then Pending
    else if text == "open" then Open
    else if text == "partially_filled" then PartiallyFilled
    else if text == "filled" then Filled
    else if text == "cancelled" then Cancelled
    else if text == "rejected" then Rejected
    else if text == "expired" then Cancelled
    else Open
  }

  datatype Result = Result(orderId: string, exchangeOrderId: string, status: string)

  datatype Record = Record(request: string, account: string, result: Result, status: Status, retries: nat)

  type Key = (string, string)

  /** Records are shared: the dictionary and every coroutine that awaits the exchange hold the same
      record object. A handle is the identity of that object: its place in `records`. */
  datatype Tracker = Tracker(records: seq<Record>, orders: map<Key, nat>, index: map<string, Key>)
  {
    ghost predicate Valid() { forall k <- orders :: orders[k] < |records| }

    function Tracked(request: string, account: string, result: Result, status: Status): Tracker {
      var key := (account, result.orderId);
      Tracker(records + [Record(request, account, result, status, 0)], orders[key := |records|], index[request := key])
    }

    function ByRequest(request: string): Option<nat> {
      if request in index && index[request] in orders then Some(orders[index[request]]) else None
    }

    function Get(key: Key): Option<nat> { if key in orders then Some(orders[key]) else None }

    function ReKeyed(account: string, old_: string, new_: string): Tracker
      requires Valid()
    {
      if (account, old_) !in orders then this
      else
        var h := orders[(account, old_)];
        this.(orders := (orders - {(account, old_)})[(account, new_) := h],
              index := index[records[h].request := (account, new_)])
    }

    function Updated(key: Key, result: Result, status: Status): Tracker
      requires Valid()
    {
      if key !in orders then this
      else this.(records := records[orders[key] := records[orders[key]].(result := result, status := status)])
    }

    /** `update` without a status. */
    function Restated(key: Key, result: Result): Tracker
      requires Valid()
    {
      if key !in orders then this else this.(records := records[orders[key] := records[orders[key]].(result := result)])
    }

    function Retried(key: Key): Tracker
      requires Valid()
    {
      if key !in orders then this
      else this.(records := records[orders[key] := records[orders[key]].(retries := records[orders[key]].retries + 1)])
    }

    predicate MayBecome(h: nat, target: Status)
      requires h < |records|
    {
      target in Transitions(records[h].status)
    }

    function Became(h: nat, target: Status): Tracker
      requires h < |records|
    {
      this.(records := records[h := records[h].(status := target)])
    }
  }

  /** The order under a key after an update, field by field; no other order changes, and under an unknown key
      none does. */
  lemma UpdateStores(t: Tracker, key: Key, result: Result, status: Status)
    requires t.Valid()
    ensures key !in t.orders ==> t.Updated(key, result, status) == t.Restated(key, result) == t.Retried(key) == t
    ensures key in t.orders ==>
      var h, was := t.orders[key], t.records[t.orders[key]];
      && t.Updated(key, result, status)
           == t.(records := t.records[h := Record(was.request, was.account, result, status, was.retries)])
      && t.Restated(key, result)
           == t.(records := t.records[h := Record(was.request, was.account, result, was.status, was.retries)])
      && t.Retried(key)
           == t.(records := t.records[h := Record(was.request, was.account, was.result, was.status, was.retries + 1)])
  {
  }

  /** The statuses from which each status may be entered. */
  lemma EnteredFrom(from: Status, to: Status)
    ensures to in Transitions(from) <==>
      match to
      case Pending => false
      case Submitting => from in {Pending, Failed}
      case Open => from == Submitting
      case PartiallyFilled => from in {Submitting, Open, PartiallyFilled, Cancelling}
      case Filled => from in {Submitting, Open, PartiallyFilled, Cancelling}
      case Cancelling => from in {Open, PartiallyFilled}
      case Cancelled => from in {Open, PartiallyFilled, Cancelling}
      case Rejected => from == Submitting
      case Failed => from == Submitting
  {
  }

  /** `OrderTracker`, updated in place. */
  class OrderTracker {
    var records: seq<Record>
    var orders: map<Key, nat>
    var index: map<string, Key>

    ghost function View(): Tracker reads this { Tracker(records, orders, index) }

    ghost predicate Valid() reads this { View().Valid() }

    constructor ()
      ensures Valid() && View() == Tracker([], map[], map[])
    {
      records, orders, index := [], map[], map[];
    }

    method Track(request: string, account: string, result: Result, status: Status) returns (h: nat)
      requires Valid()
      modifies this
      ensures Valid() && View() == old(View()).Tracked(request, account, result, status) && h == |old(records)|
    {
      h := |records|;
      records := records + [Record(request, account, result, status, 0)];
      var key := (account, result.orderId);
      orders := orders[key := h];
      index := index[request := key];
    }

    method GetByRequestId(request: string) returns (h: Option<nat>)
      ensures h == View().ByRequest(request)
    {
      if request !in index {
        return None;
      }
      h := if index[request] in orders then Some(orders[index[request]]) else None;
    }

    method Get(account: string, orderId: string) returns (h: Option<nat>)
      ensures h == View().Get((account, orderId))
    {
      h := if (account, orderId) in orders then Some(orders[(account, orderId)]) else None;
    }

    method ReKey(account: string, old_: string, new_: string) returns (h: Option<nat>)
      requires Valid()
      modifies this`orders, this`index
      ensures Valid() && View() == old(View()).ReKeyed(account, old_, new_)
      ensures h == old(View()).Get((account, old_))
    {
      var oldKey := (account, old_);
      if oldKey !in orders {
        return None;
      }
      h := Some(orders[oldKey]);
      orders := orders - {oldKey};
      var newKey := (account, new_);
      orders := orders[newKey := h.value];
      index := index[records[h.value].request := newKey];
    }

    method Update(account: string, orderId: string, result: Result, status: Option<Status>, retry: bool)
      returns (updated: Option<nat>)
      requires Valid()
      modifies this`records
      ensures Valid() && updated == old(View()).Get((account, orderId))
      ensures
        var was, key := old(View()), (account, orderId);
        var stored := if status.Some? then was.Updated(key, result, status.value) else was.Restated(key, result);
        View() == if retry then stored.Retried(key) else stored
    {
      var key := (account, orderId);
      updated := None;
      if key in orders {
        var h := orders[key];
        records := records[h := records[h].(result := result)];
        if status.Some? {
          records := records[h := records[h].(status := status.value)];
        }
        if retry {
          records := records[h := records[h].(retries := records[h].retries + 1)];
        }
        updated := Some(h);
      }
    }

    /** `_transition` on the record behind a handle: false stands for InvalidStateTransition. */
    method Transition(h: nat, target: Status) returns (ok: bool)
      requires Valid() && h < |records|
      modifies this`records
      ensures Valid() && ok == old(View()).MayBecome(h, target)
      ensures View() == if ok then old(View()).Became(h, target) else old(View())
    {
      ok := target in Transitions(records[h].status);
      if ok {
        records := records[h := records[h].(status := target)];
      }
    }
  }
}
