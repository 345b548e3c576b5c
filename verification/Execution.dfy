/** The execution engine as a protocol: every `await` on the exchange splits an operation, and any
    number of operations may be waiting at once. */
module Execution {
  import opened Orders

  /** A coroutine that awaits the exchange, with the locals it will need. */
  datatype Call =
    | Placing(h: nat, request: string, account: string)
    | CancelSent(h: nat, account: string, orderId: string)
    | Querying(h: nat, account: string, orderId: string)

  /** What the await returns with: `Gone` is an exception the operation does not handle. */
  datatype Answer = Ok(result: Result) | Refused | Gone

  datatype Engine = Engine(tracker: Tracker, adapters: set<string>, calls: seq<Call>, executed: seq<string>)

  datatype Reply = Returned(result: Result) | Raised | Awaiting

  datatype Effect = Effect(engine: Engine, reply: Reply)

  ghost predicate Valid(e: Engine) {
    e.tracker.Valid() && forall i | 0 <= i < |e.calls| :: e.calls[i].h < |e.tracker.records|
  }

  function Waits(e: Engine, c: Call): Engine { e.(calls := e.calls + [c]) }

  /** `place_order` up to the await of the executor. `valid` is the validator's verdict. */
  function PlaceBegins(e: Engine, request: string, account: string, valid: bool, localId: string): Effect
    requires Valid(e)
  {
    var cached := e.tracker.ByRequest(request);
    if cached.Some? then Effect(e, Returned(e.tracker.records[cached.value].result))
    else if account !in e.adapters || !valid then Effect(e, Raised)
    else
      var h := |e.tracker.records|;
      var t := e.tracker.Tracked(request, account, Result(localId, "", "pending"), Pending).Became(h, Submitting);
      Effect(Waits(e.(tracker := t, executed := e.executed + [request]), Placing(h, request, account)), Awaiting)
  }

  /** The `except` block of `place_order`. */
  function PlaceFails(t: Tracker, h: nat, account: string): Tracker
    requires t.Valid() && h < |t.records|
  {
    if !t.MayBecome(h, Failed) then t
    else
      var stored := t.records[h].result;
      t.Became(h, Failed).Updated((account, stored.orderId), stored.(status := "rejected"), Failed)
  }

  /** The re-keying that follows a successful placement. */
  function PlaceReKeys(t: Tracker, h: nat, account: string, result: Result): Tracker
    requires t.Valid() && h < |t.records|
  {
    var old_ := t.records[h].result.orderId;
    if result.orderId != old_ then t.ReKeyed(account, old_, result.orderId) else t
  }

  /** The rest of `place_order`. */
  function PlaceEnds(e: Engine, h: nat, account: string, a: Answer): Effect
    requires Valid(e) && h < |e.tracker.records|
  {
    if !a.Ok? then Effect(e.(tracker := PlaceFails(e.tracker, h, account)), Raised)
    else
      var t, status := PlaceReKeys(e.tracker, h, account, a.result), MapExchangeStatus(a.result.status);
      if t.MayBecome(h, status)
      then
        var stored := t.Became(h, status).Updated((account, a.result.orderId), a.result, status);
        Effect(e.(tracker := stored), Returned(a.result))
      else Effect(e.(tracker := PlaceFails(t, h, account)), Raised)
  }

  /** `cancel_order` up to its await. */
  function CancelBegins(e: Engine, account: string, orderId: string): Effect
    requires Valid(e)
  {
    var found := e.tracker.Get((account, orderId));
    if found.None? then Effect(e, Raised)
    else
      var h := found.value;
      if Terminal(e.tracker.records[h].status) then Effect(e, Returned(e.tracker.records[h].result))
      else if account !in e.adapters || !e.tracker.MayBecome(h, Cancelling) then Effect(e, Raised)
      else Effect(Waits(e.(tracker := e.tracker.Became(h, Cancelling)), CancelSent(h, account, orderId)), Awaiting)
  }

  /** The rest of `cancel_order`: a refusal makes it ask the exchange for the order instead. */
  function CancelEnds(e: Engine, h: nat, account: string, orderId: string, a: Answer): Effect
    requires Valid(e) && h < |e.tracker.records|
  {
    match a
    case Refused => Effect(Waits(e, Querying(h, account, orderId)), Awaiting)
    case Gone => Effect(e, Raised)
    case Ok(_) =>
      if !e.tracker.MayBecome(h, Cancelled) then Effect(e, Raised)
      else
        var result := e.tracker.records[h].result.(status := "cancelled");
        var stored := e.tracker.Became(h, Cancelled).Updated((account, orderId), result, Cancelled);
        Effect(e.(tracker := stored), Returned(result))
  }

  function SyncBegins(e: Engine, account: string, orderId: string): Effect
    requires Valid(e)
  {
    var found := e.tracker.Get((account, orderId));
    if found.None? || account !in e.adapters then Effect(e, Raised)
    else Effect(Waits(e, Querying(found.value, account, orderId)), Awaiting)
  }

  /** The rest of `sync_order`, and of a `cancel_order` that was refused. */
  function QueryEnds(e: Engine, h: nat, account: string, orderId: string, a: Answer): Effect
    requires Valid(e) && h < |e.tracker.records|
  {
    if !a.Ok? || !e.tracker.MayBecome(h, MapExchangeStatus(a.result.status)) then Effect(e, Raised)
    else
      var status := MapExchangeStatus(a.result.status);
      var stored := e.tracker.Became(h, status).Updated((account, orderId), a.result, status);
      Effect(e.(tracker := stored), Returned(a.result))
  }

  /** One round of `cancel_all_orders` after the exchange has cancelled `orderId`. */
  function Swept(e: Engine, account: string, orderId: string): Effect
    requires Valid(e)
  {
    var found := e.tracker.Get((account, orderId));
    if found.Some? && !e.tracker.MayBecome(found.value, Cancelled) then Effect(e, Raised)
    else Effect(if found.None? then e else e.(tracker := e.tracker.Became(found.value, Cancelled)),
                Returned(Result(orderId, orderId, "cancelled")))
  }

  /** `cancel_all_orders` over the orders the exchange lists as open, from the k-th on: it passes over those
      whose cancellation is refused, and an exception ends it. */
  datatype SweepDone = SweepDone(engine: Engine, raised: bool, results: seq<Result>)

  function SweptAll(e: Engine, account: string, open: seq<Result>, works: seq<bool>, k: nat): (d: SweepDone)
    requires Valid(e) && k <= |open|
    ensures Valid(d.engine) && d.engine.tracker.orders == e.tracker.orders
    ensures |d.engine.tracker.records| == |e.tracker.records|
    decreases |open| - k
  {
    if k == |open| then SweepDone(e, false, [])
    else if !Works(works, k) then SweptAll(e, account, open, works, k + 1)
    else
      var s := Swept(e, account, open[k].orderId);
      if s.reply.Raised? then SweepDone(s.engine, true, [])
      else
        var rest := SweptAll(s.engine, account, open, works, k + 1);
        rest.(results := [open[k]] + rest.results)
  }

  predicate Works(works: seq<bool>, k: nat) { k < |works| && works[k] }

  predicate IsCancelled(e: Engine, h: nat) { h < |e.tracker.records| && e.tracker.records[h].status == Cancelled }

  lemma {:induction false} CancelledStaysSo(
    e: Engine, account: string, open: seq<Result>, works: seq<bool>, k: nat, h: nat)
    requires Valid(e) && k <= |open| && IsCancelled(e, h)
    ensures IsCancelled(SweptAll(e, account, open, works, k).engine, h)
    decreases |open| - k
  {
    if k < |open| {
      if !Works(works, k) {
        CancelledStaysSo(e, account, open, works, k + 1, h);
      } else {
        var s := Swept(e, account, open[k].orderId);
        if !s.reply.Raised? {
          CancelledStaysSo(s.engine, account, open, works, k + 1, h);
        }
      }
    }
  }

  /** A sweep that does not raise leaves every tracked order whose cancellation worked CANCELLED, and reports
      the listed orders whose cancellation worked, tracked or not. */
  lemma {:induction false} SweepCancels(
    e: Engine, account: string, open: seq<Result>, works: seq<bool>, k: nat, j: nat)
    requires Valid(e) && k <= j < |open| && Works(works, j) && !SweptAll(e, account, open, works, k).raised
    ensures var d, key := SweptAll(e, account, open, works, k), (account, open[j].orderId);
      open[j] in d.results && (key in e.tracker.orders ==> IsCancelled(d.engine, e.tracker.orders[key]))
    decreases |open| - k
  {
    if !Works(works, k) {
      SweepCancels(e, account, open, works, k + 1, j);
    } else {
      var s := Swept(e, account, open[k].orderId);
      if k < j {
        SweepCancels(s.engine, account, open, works, k + 1, j);
      } else if (account, open[k].orderId) in e.tracker.orders {
        CancelledStaysSo(s.engine, account, open, works, k + 1, e.tracker.orders[(account, open[k].orderId)]);
      }
    }
  }

  function Worked(open: seq<Result>, works: seq<bool>, k: nat): seq<Result>
    requires k <= |open|
    decreases |open| - k
  {
    if k == |open| then []
    else if Works(works, k) then [open[k]] + Worked(open, works, k + 1) else Worked(open, works, k + 1)
  }

  /** The cancellation of order `j` works and stands against its record, which has ended, has not been opened yet,
      or was cancelled by the same sweep already. */
  ghost predicate Clashes(e: Engine, account: string, open: seq<Result>, works: seq<bool>, k: nat, j: nat)
    requires Valid(e)
  {
    k <= j < |open| && Works(works, j) && (account, open[j].orderId) in e.tracker.orders &&
    var h := e.tracker.orders[(account, open[j].orderId)];
    || e.tracker.records[h].status !in {Open, PartiallyFilled, Cancelling}
    || CancelledBefore(e, account, open, works, k, j, h)
  }

  ghost predicate Clash(e: Engine, account: string, open: seq<Result>, works: seq<bool>, k: nat)
    requires Valid(e)
  {
    exists j :: Clashes(e, account, open, works, k, j)
  }

  ghost predicate CancelledBefore(
    e: Engine, account: string, open: seq<Result>, works: seq<bool>, k: nat, j: nat, h: nat)
    requires j <= |open|
  {
    exists i: nat | k <= i < j :: Works(works, i) && Names(e, account, open[i].orderId, h)
  }

  ghost predicate Names(e: Engine, account: string, orderId: string, h: nat) {
    (account, orderId) in e.tracker.orders && e.tracker.orders[(account, orderId)] == h
  }

  /** A sweep raises exactly if a cancellation that works clashes with its record; otherwise it reports the orders
      whose cancellation worked, as they were listed. */
  lemma {:induction false} SweepRaisesIff(e: Engine, account: string, open: seq<Result>, works: seq<bool>, k: nat)
    requires Valid(e) && k <= |open|
    ensures SweptAll(e, account, open, works, k).raised <==> Clash(e, account, open, works, k)
    ensures !SweptAll(e, account, open, works, k).raised ==>
      SweptAll(e, account, open, works, k).results == Worked(open, works, k)
    decreases |open| - k
  {
    if k < |open| {
      if !Works(works, k) {
        SweepRaisesIff(e, account, open, works, k + 1);
        if Clash(e, account, open, works, k) {
          var j :| Clashes(e, account, open, works, k, j);
          ClashesPast(e, account, open, works, k, j);
        }
        if Clash(e, account, open, works, k + 1) {
          var next: nat := k + 1;
          var j :| Clashes(e, account, open, works, next, j);
          ClashesPast(e, account, open, works, k, j);
        }
      } else {
        var s := Swept(e, account, open[k].orderId);
        if s.reply.Raised? {
          assert Clashes(e, account, open, works, k, k);
        } else {
          SweepRaisesIff(s.engine, account, open, works, k + 1);
          if Clash(e, account, open, works, k) {
            var j :| Clashes(e, account, open, works, k, j);
            ClashesLater(e, account, open, works, k, j);
          }
          if Clash(s.engine, account, open, works, k + 1) {
            var next: nat := k + 1;
            var j :| Clashes(s.engine, account, open, works, next, j);
            ClashesLater(e, account, open, works, k, j);
          }
        }
      }
    }
  }

  lemma ClashesPast(e: Engine, account: string, open: seq<Result>, works: seq<bool>, k: nat, j: nat)
    requires Valid(e) && k < |open| && !Works(works, k)
    ensures Clashes(e, account, open, works, k, j) <==> Clashes(e, account, open, works, k + 1, j)
  {
    if Clashes(e, account, open, works, k, j) {
      var h := e.tracker.orders[(account, open[j].orderId)];
      assert CancelledBefore(e, account, open, works, k, j, h)
        ==> CancelledBefore(e, account, open, works, k + 1, j, h);
    }
  }

  lemma ClashesLater(e: Engine, account: string, open: seq<Result>, works: seq<bool>, k: nat, j: nat)
    requires Valid(e) && k < |open| && Works(works, k) && !Swept(e, account, open[k].orderId).reply.Raised?
    ensures var e' := Swept(e, account, open[k].orderId).engine;
      Clashes(e, account, open, works, k, j) <==> Clashes(e', account, open, works, k + 1, j)
  {
    var e' := Swept(e, account, open[k].orderId).engine;
    assert e'.tracker.orders == e.tracker.orders;
    if k < j < |open| && (account, open[j].orderId) in e.tracker.orders {
      var h := e.tracker.orders[(account, open[j].orderId)];
      if Names(e, account, open[k].orderId, h) {
        assert e'.tracker.records[h].status == Cancelled;
        assert CancelledBefore(e, account, open, works, k, j, h);
      } else {
        assert e'.tracker.records[h] == e.tracker.records[h];
        if CancelledBefore(e, account, open, works, k, j, h) {
          var i: nat :| k <= i < j && Works(works, i) && Names(e, account, open[i].orderId, h);
          assert Names(e', account, open[i].orderId, h);
        }
        if CancelledBefore(e', account, open, works, k + 1, j, h) {
          var i: nat :| k + 1 <= i < j && Works(works, i) && Names(e', account, open[i].orderId, h);
          assert Names(e, account, open[i].orderId, h);
        }
      }
    }
  }

  datatype Event =
    | Place(request: string, account: string, valid: bool, localId: string)
    | Cancel(account: string, orderId: string)
    | Sync(account: string, orderId: string)
    | Sweep(account: string, orderId: string)
    | Resume(call: nat, answer: Answer)

  function Without(calls: seq<Call>, i: nat): seq<Call>
    requires i < |calls|
  {
    calls[..i] + calls[i + 1..]
  }

  function Step(e: Engine, ev: Event): Effect
    requires Valid(e) && (ev.Resume? ==> ev.call < |e.calls|)
  {
    match ev
    case Place(request, account, valid, localId) => PlaceBegins(e, request, account, valid, localId)
    case Cancel(account, orderId) => CancelBegins(e, account, orderId)
    case Sync(account, orderId) => SyncBegins(e, account, orderId)
    case Sweep(account, orderId) => Swept(e, account, orderId)
    case Resume(i, a) =>
      var e' := e.(calls := Without(e.calls, i));
      match e.calls[i]
      case Placing(h, _, account) => PlaceEnds(e', h, account, a)
      case CancelSent(h, account, orderId) => CancelEnds(e', h, account, orderId, a)
      case Querying(h, account, orderId) => QueryEnds(e', h, account, orderId, a)
  }
}
