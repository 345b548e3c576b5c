/** What the texts an exchange answers with come to: which status an order is left in, text by text. */
module ExecutionAnswers {
  import opened Orders
  import opened Execution

  /** The order behind `h` is stored with this result and status, and nothing else has changed but the key it is
      stored under and indexed by. */
  ghost predicate LeftAs(e: Engine, e': Engine, h: nat, r: Result, s: Status) {
    && h < |e.tracker.records| == |e'.tracker.records|
    && e'.tracker.records == e.tracker.records[h := e.tracker.records[h].(result := r, status := s)]
    && e'.adapters == e.adapters && e'.calls == e.calls && e'.executed == e.executed
  }

  ghost predicate StoredAt(e: Engine, h: nat, account: string, orderId: string) {
    h < |e.tracker.records| && (account, orderId) in e.tracker.orders && e.tracker.orders[(account, orderId)] == h
  }

  /** A placement begins: a request seen before is answered from the record, an account without an adapter or an
      order that is not valid raises, and any other is recorded as submitting before the exchange is asked. */
  lemma PlacementBegins(e: Engine, request: string, account: string, valid: bool, localId: string)
    requires Valid(e)
    ensures var out, seen := PlaceBegins(e, request, account, valid, localId), e.tracker.ByRequest(request);
      if seen.Some? then out == Effect(e, Returned(e.tracker.records[seen.value].result))
      else if account !in e.adapters || !valid then out == Effect(e, Raised)
      else
        var h, key := |e.tracker.records|, (account, localId);
        && out.reply == Awaiting
        && out.engine == Engine(
             Tracker(e.tracker.records + [Record(request, account, Result(localId, "", "pending"), Submitting, 0)],
                     e.tracker.orders[key := h], e.tracker.index[request := key]),
             e.adapters, e.calls + [Placing(h, request, account)], e.executed + [request])
  {
  }

  /** A placement that is answered, for every text the exchange may use: texts that are not known count as
      "open". What the table does not let a new order become leaves it FAILED, and the call raises. */
  lemma PlacementAnswered(e: Engine, h: nat, account: string, r: Result)
    requires Valid(e) && h < |e.tracker.records| && e.tracker.records[h].status == Submitting
    requires StoredAt(e, h, account, e.tracker.records[h].result.orderId)
    ensures var out, was := PlaceEnds(e, h, account, Ok(r)), e.tracker.records[h].result;
      && StoredAt(out.engine, h, account, r.orderId)
      && match r.status
         case "filled" => out.reply == Returned(r) && LeftAs(e, out.engine, h, r, Filled)
         case "partially_filled" => out.reply == Returned(r) && LeftAs(e, out.engine, h, r, PartiallyFilled)
         case "rejected" => out.reply == Returned(r) && LeftAs(e, out.engine, h, r, Rejected)
         case "pending" => out.reply == Raised && LeftAs(e, out.engine, h, AsRefused(was, r), Failed)
         case "cancelled" => out.reply == Raised && LeftAs(e, out.engine, h, AsRefused(was, r), Failed)
         case "expired" => out.reply == Raised && LeftAs(e, out.engine, h, AsRefused(was, r), Failed)
         case _ => out.reply == Returned(r) && LeftAs(e, out.engine, h, r, Open)
  {
  }

  /** The result kept of a placement whose answer is refused: the placeholder's, marked as rejected only if the
      answer did not bring another id. */
  function AsRefused(was: Result, r: Result): Result {
    if r.orderId == was.orderId then was.(status := "rejected") else was
  }

  /** A placement that fails. */
  lemma PlacementFailed(e: Engine, h: nat, account: string, a: Answer)
    requires Valid(e) && h < |e.tracker.records| && e.tracker.records[h].status == Submitting && !a.Ok?
    requires StoredAt(e, h, account, e.tracker.records[h].result.orderId)
    ensures var out := PlaceEnds(e, h, account, a);
      && out.reply == Raised && out.engine.tracker.orders == e.tracker.orders
      && LeftAs(e, out.engine, h, e.tracker.records[h].result.(status := "rejected"), Failed)
  {
  }

  /** The statuses from which each text takes an order on. */
  ghost predicate TakenFrom(text: string, from: Status) {
    match text
    case "filled" => from in {Submitting, Open, PartiallyFilled, Cancelling}
    case "partially_filled" => from in {Submitting, Open, PartiallyFilled, Cancelling}
    case "cancelled" => from in {Open, PartiallyFilled, Cancelling}
    case "expired" => from in {Open, PartiallyFilled, Cancelling}
    case "rejected" => from == Submitting
    case "pending" => false
    case _ => from == Submitting
  }

  /** A query that is answered, for every text and every status: the order is stored as the text says, or the
      call raises and changes nothing. */
  lemma QueryAnswered(e: Engine, h: nat, account: string, orderId: string, r: Result)
    requires Valid(e) && StoredAt(e, h, account, orderId)
    ensures var out := QueryEnds(e, h, account, orderId, Ok(r));
      if !TakenFrom(r.status, e.tracker.records[h].status) then out == Effect(e, Raised)
      else
        && out.reply == Returned(r) && out.engine.tracker.orders == e.tracker.orders
        && match r.status
           case "filled" => LeftAs(e, out.engine, h, r, Filled)
           case "partially_filled" => LeftAs(e, out.engine, h, r, PartiallyFilled)
           case "rejected" => LeftAs(e, out.engine, h, r, Rejected)
           case "cancelled" => LeftAs(e, out.engine, h, r, Cancelled)
           case "expired" => LeftAs(e, out.engine, h, r, Cancelled)
           case _ => LeftAs(e, out.engine, h, r, Open)
  {
  }

  /** A query that brings no answer raises and changes nothing. */
  lemma QueryFailed(e: Engine, h: nat, account: string, orderId: string, a: Answer)
    requires Valid(e) && StoredAt(e, h, account, orderId) && !a.Ok?
    ensures QueryEnds(e, h, account, orderId, a) == Effect(e, Raised)
  {
  }

  /** What is not tracked can be neither cancelled nor asked about, and without an adapter nobody is asked. */
  lemma UnknownRaises(e: Engine, account: string, orderId: string)
    requires Valid(e)
    ensures (account, orderId) !in e.tracker.orders ==>
      CancelBegins(e, account, orderId) == SyncBegins(e, account, orderId) == Effect(e, Raised)
    ensures account !in e.adapters ==> SyncBegins(e, account, orderId) == Effect(e, Raised)
    ensures account !in e.adapters && CancelBegins(e, account, orderId).reply != Raised ==>
      (account, orderId) in e.tracker.orders
        && e.tracker.records[e.tracker.orders[(account, orderId)]].status in {Filled, Cancelled, Rejected}
    ensures forall h: nat | StoredAt(e, h, account, orderId) && account in e.adapters ::
      SyncBegins(e, account, orderId) == Effect(e.(calls := e.calls + [Querying(h, account, orderId)]), Awaiting)
  {
  }

  /** A cancellation: refused outright for an order that has ended, sent for one that works. */
  lemma CancellationBegins(e: Engine, h: nat, account: string, orderId: string)
    requires Valid(e) && StoredAt(e, h, account, orderId) && account in e.adapters
    ensures var out, from := CancelBegins(e, account, orderId), e.tracker.records[h].status;
      if from in {Filled, Cancelled, Rejected} then out == Effect(e, Returned(e.tracker.records[h].result))
      else if from in {Open, PartiallyFilled} then
        && out.reply == Awaiting && out.engine.calls == e.calls + [CancelSent(h, account, orderId)]
        && LeftAs(e, out.engine.(calls := e.calls), h, e.tracker.records[h].result, Cancelling)
      else out == Effect(e, Raised)
  {
  }

  /** The exchange answers a cancellation: done, it is stored, unless the order has ended meanwhile; refused, the
      order is asked about. */
  lemma CancellationAnswered(e: Engine, h: nat, account: string, orderId: string, a: Answer)
    requires Valid(e) && StoredAt(e, h, account, orderId)
    ensures var out := CancelEnds(e, h, account, orderId, a);
      var cancelled := e.tracker.records[h].result.(status := "cancelled");
      match a
      case Ok(_) =>
        if e.tracker.records[h].status !in {Open, PartiallyFilled, Cancelling} then out == Effect(e, Raised)
        else
        && out.reply == Returned(cancelled) && out.engine.tracker.orders == e.tracker.orders
        && LeftAs(e, out.engine, h, cancelled, Cancelled)
      case Refused => out == Effect(e.(calls := e.calls + [Querying(h, account, orderId)]), Awaiting)
      case Gone => out == Effect(e, Raised)
  {
  }
}
