/** At most once, whatever ids the exchange reports. ExecutionRuns assumes that an id names one order; here
    placements may be reported under any id, even one that names another order already. All that is needed
    is that the engine's own placeholder ids stay its own. */
module ExecutionOnce {
  import opened Options
  import opened Orders
  import opened OrderExecutor
  import opened Execution
  import ExecutionRuns

  type World = ExecutionRuns.World

  type Input = ExecutionRuns.Input

  const LOCAL_PREFIX := "local_"

  /** `_local_order_id` makes ids of this form. */
  predicate IsLocal(id: string) { LOCAL_PREFIX <= id }

  ghost predicate BeingPlaced(e: Engine, h: nat) { exists c :: c in e.calls && c.Placing? && c.h == h }

  /** A new placeholder id has not been seen, and the exchange reports a placement under any id that is not the
      placeholder of another order. */
  ghost predicate Honest(w: World, max: nat, i: Input)
    requires Valid(w.engine)
  {
    match i.event
    case Place(_, account, _, localId) => IsLocal(localId) && (account, localId) !in w.owner
    case Resume(n, a) =>
      n < |w.engine.calls| &&
      var c := w.engine.calls[n];
      && (c.Placing? ==> Executed(max, i.seen, if a.Ok? then Some(a.result) else None))
      && (c.Placing? && a.Ok? && IsLocal(a.result.orderId) ==>
          a.result.orderId == w.engine.tracker.records[c.h].result.orderId)
    case _ => true
  }

  /** A query about an order that is still being placed is answered under the id it was asked about, unless
      the answer comes with a status that the order may not take. */
  ghost predicate AsAsked(w: World, i: Input)
    requires Valid(w.engine)
  {
    && i.event.Resume? && i.event.call < |w.engine.calls|
    && w.engine.calls[i.event.call].Querying? && i.event.answer.Ok? ==>
      var c, r := w.engine.calls[i.event.call], i.event.answer.result;
      Held(w.engine, (c.account, c.orderId)) && c.h < |w.engine.tracker.records|
        && w.engine.tracker.MayBecome(c.h, MapExchangeStatus(r.status)) ==>
        r.orderId == c.orderId
  }

  ghost predicate Fair(w: World, max: nat, i: Input)
    requires Valid(w.engine)
  {
    Honest(w, max, i) && AsAsked(w, i)
  }

  /** An order that is still being placed is stored under this key. */
  ghost predicate Held(e: Engine, key: Key) { key in e.tracker.orders && BeingPlaced(e, e.tracker.orders[key]) }

  // ------------------------------------------------------------------ the tracker

  /** The index never points outside the stored orders. */
  ghost predicate Rooted(t: Tracker) { t.Valid() && forall r <- t.index :: t.index[r] in t.orders }

  /** The order behind `h` is stored under its placeholder and nowhere else, and only its own request is
      indexed there. */
  ghost predicate Own(t: Tracker, h: nat, request: string, account: string) {
    h < |t.records| && t.records[h].request == request &&
    var key := (account, t.records[h].result.orderId);
    && IsLocal(key.1) && key in t.orders && t.orders[key] == h && request in t.index && t.index[request] == key
    && (forall r <- t.index :: t.index[r] == key ==> r == request)
    && (forall k <- t.orders :: t.orders[k] == h ==> k == key)
  }

  /** Orders and index stand, and no order that is still being placed changes its id. */
  ghost predicate Revises(t: Tracker, t': Tracker, calls: seq<Call>) {
    && t'.orders == t.orders && t'.index == t.index && |t'.records| == |t.records|
    && forall c | c in calls && c.Placing? && c.h < |t.records| ::
         t'.records[c.h].request == t.records[c.h].request
           && t'.records[c.h].result.orderId == t.records[c.h].result.orderId
  }

  lemma TrackedKeepsOwn(t: Tracker, request: string, account: string, r: Result, h: nat, request': string,
      account': string)
    requires Rooted(t) && request !in t.index && (account, r.orderId) !in t.orders && Own(t, h, request', account')
    ensures Own(t.Tracked(request, account, r, Pending).Became(|t.records|, Submitting), h, request', account')
  {
  }

  lemma TrackedOwnsItself(t: Tracker, request: string, account: string, r: Result)
    requires Rooted(t) && request !in t.index && (account, r.orderId) !in t.orders && IsLocal(r.orderId)
    ensures var t' := t.Tracked(request, account, r, Pending).Became(|t.records|, Submitting);
      Own(t', |t.records|, request, account) && Rooted(t')
  {
  }

  /** Re-keying an order that is being placed, to an id that is nobody's placeholder. */
  lemma ReKeyedKeepsRooted(t: Tracker, h: nat, request: string, account: string, new_: string)
    requires Rooted(t) && Own(t, h, request, account) && !IsLocal(new_)
    ensures var t' := t.ReKeyed(account, t.records[h].result.orderId, new_);
      Rooted(t') && t'.index.Keys == t.index.Keys && t'.records == t.records
      && (account, new_) in t'.orders && t'.orders[(account, new_)] == h
      && forall k <- t'.orders :: k == (account, new_) || (k in t.orders && t'.orders[k] == t.orders[k])
  {
  }

  lemma ReKeyedKeepsOwn(t: Tracker, h: nat, request: string, account: string, new_: string, g: nat, request': string,
      account': string)
    requires Rooted(t) && Own(t, h, request, account) && !IsLocal(new_) && g != h && Own(t, g, request', account')
    ensures Own(t.ReKeyed(account, t.records[h].result.orderId, new_), g, request', account')
  {
  }

  // ------------------------------------------------------------------ the invariant of a run

  ghost predicate Fits(c: Call, t: Tracker, owner: map<Key, nat>) {
    if c.Placing? then Own(t, c.h, c.request, c.account)
    else
      var key := (c.account, c.orderId);
      c.h < |t.records| && key in owner && (IsLocal(c.orderId) && key in t.orders ==> t.orders[key] == c.h)
  }

  ghost predicate Once(w: World, max: nat) {
    var e := w.engine;
    && (forall i, j | 0 <= i < j < |e.executed| :: e.executed[i] != e.executed[j])
    && (forall r <- e.executed :: r in e.tracker.index)
    && (forall c <- e.calls :: c.Placing? ==> c.request !in w.placements)
    && (forall r <- w.placements :: w.placements[r] <= max && r in e.tracker.index)
  }

  ghost predicate Inv(w: World, max: nat) {
    && Valid(w.engine) && Rooted(w.engine.tracker) && (forall k <- w.engine.tracker.orders :: k in w.owner)
    && (forall c <- w.engine.calls :: Fits(c, w.engine.tracker, w.owner))
    && ExecutionRuns.Distinct(w.engine.calls) && Once(w, max)
  }

  lemma RevisedStillFits(t: Tracker, t': Tracker, calls: seq<Call>, owner: map<Key, nat>, owner': map<Key, nat>,
      c: Call)
    requires t.Valid() && Revises(t, t', calls) && c in calls && Fits(c, t, owner)
    requires forall k <- owner :: k in owner'
    ensures Fits(c, t', owner')
  {
  }

  /** A step that only revises stored orders, and starts or ends calls that place nothing. */
  lemma RevisionKeepsInv(w: World, max: nat, w': World)
    requires Inv(w, max) && Revises(w.engine.tracker, w'.engine.tracker, w.engine.calls)
    requires forall k <- w.owner :: k in w'.owner
    requires forall c <- w'.engine.calls :: c in w.engine.calls || (!c.Placing? && Fits(c, w'.engine.tracker, w'.owner))
    requires ExecutionRuns.Distinct(w'.engine.calls) && w'.engine.executed == w.engine.executed
    requires w'.placements == w.placements
    ensures Inv(w', max)
  {
    forall c <- w'.engine.calls ensures Fits(c, w'.engine.tracker, w'.owner) {
      if c in w.engine.calls {
        RevisedStillFits(w.engine.tracker, w'.engine.tracker, w.engine.calls, w.owner, w'.owner, c);
      }
    }
    forall i | 0 <= i < |w'.engine.calls| ensures w'.engine.calls[i].h < |w'.engine.tracker.records| {
      assert w'.engine.calls[i] in w'.engine.calls;
    }
  }

  lemma BecameRevises(t: Tracker, h: nat, s: Status, calls: seq<Call>)
    requires t.Valid() && h < |t.records|
    ensures Revises(t, t.Became(h, s), calls) && t.Became(h, s).Valid()
  {
  }

  /** Storing a result under a key, if the order there is not being placed or keeps its id. */
  lemma UpdatedRevises(t: Tracker, key: Key, r: Result, s: Status, calls: seq<Call>)
    requires t.Valid()
    requires forall c <- calls :: c.Placing? && key in t.orders && t.orders[key] == c.h && c.h < |t.records| ==>
      r.orderId == t.records[c.h].result.orderId
    ensures Revises(t, t.Updated(key, r, s), calls) && t.Updated(key, r, s).Valid()
  {
  }

  // ------------------------------------------------------------------ the steps

  lemma CancelKeepsInv(w: World, max: nat, i: Input)
    requires Inv(w, max) && i.event.Cancel?
    ensures Inv(ExecutionRuns.Next(w, i), max)
  {
    var w', found := ExecutionRuns.Next(w, i), w.engine.tracker.Get((i.event.account, i.event.orderId));
    if found.Some? && w'.engine != w.engine {
      BecameRevises(w.engine.tracker, found.value, Cancelling, w.engine.calls);
      assert w'.engine.calls == w.engine.calls + [CancelSent(found.value, i.event.account, i.event.orderId)];
      RevisionKeepsInv(w, max, w');
    }
  }

  lemma SyncKeepsInv(w: World, max: nat, i: Input)
    requires Inv(w, max) && i.event.Sync?
    ensures Inv(ExecutionRuns.Next(w, i), max)
  {
    var w', found := ExecutionRuns.Next(w, i), w.engine.tracker.Get((i.event.account, i.event.orderId));
    if found.Some? && w'.engine != w.engine {
      assert w'.engine.calls == w.engine.calls + [Querying(found.value, i.event.account, i.event.orderId)];
      RevisionKeepsInv(w, max, w');
    }
  }

  lemma SweepKeepsInv(w: World, max: nat, i: Input)
    requires Inv(w, max) && i.event.Sweep?
    ensures Inv(ExecutionRuns.Next(w, i), max)
  {
    var w', found := ExecutionRuns.Next(w, i), w.engine.tracker.Get((i.event.account, i.event.orderId));
    if found.Some? && w'.engine != w.engine {
      BecameRevises(w.engine.tracker, found.value, Cancelled, w.engine.calls);
      RevisionKeepsInv(w, max, w');
    }
  }

  /** What a new placement adds. */
  ghost predicate Began(w: World, w': World, request: string, account: string, localId: string) {
    var t, h := w.engine.tracker, |w.engine.tracker.records|;
    && w'.engine.tracker == t.Tracked(request, account, Result(localId, "", "pending"), Pending).Became(h, Submitting)
    && w'.engine.calls == w.engine.calls + [Placing(h, request, account)]
    && w'.engine.executed == w.engine.executed + [request]
    && w'.owner == w.owner[(account, localId) := h] && w'.placements == w.placements
  }

  lemma PlaceShape(w: World, i: Input)
    requires Valid(w.engine) && i.event.Place?
    ensures var w' := ExecutionRuns.Next(w, i);
      w' == w || (w.engine.tracker.ByRequest(i.event.request).None?
                  && Began(w, w', i.event.request, i.event.account, i.event.localId))
  {
  }

  lemma BeganFits(w: World, max: nat, w': World, request: string, account: string, localId: string, c: Call)
    requires Inv(w, max) && Began(w, w', request, account, localId) && request !in w.engine.tracker.index
    requires (account, localId) !in w.owner && IsLocal(localId) && c in w'.engine.calls
    ensures Fits(c, w'.engine.tracker, w'.owner)
  {
    var t, r := w.engine.tracker, Result(localId, "", "pending");
    if c in w.engine.calls {
      assert Fits(c, t, w.owner);
      if c.Placing? {
        TrackedKeepsOwn(t, request, account, r, c.h, c.request, c.account);
      }
    } else {
      TrackedOwnsItself(t, request, account, r);
    }
  }

  lemma BeganKeepsOnce(w: World, max: nat, w': World, request: string, account: string, localId: string)
    requires Inv(w, max) && Began(w, w', request, account, localId) && request !in w.engine.tracker.index
    ensures Once(w', max) && ExecutionRuns.Distinct(w'.engine.calls)
  {
    assert request !in w.engine.executed && request !in w.placements;
    assert forall c <- w.engine.calls :: Fits(c, w.engine.tracker, w.owner) && c.h < |w.engine.tracker.records|;
    assert forall i | 0 <= i < |w.engine.calls| :: w.engine.calls[i] in w.engine.calls;
  }

  lemma PlaceKeepsInv(w: World, max: nat, i: Input)
    requires Inv(w, max) && i.event.Place? && Fair(w, max, i)
    ensures Inv(ExecutionRuns.Next(w, i), max)
  {
    var w', ev := ExecutionRuns.Next(w, i), i.event;
    PlaceShape(w, i);
    if w' != w {
      assert ev.request !in w.engine.tracker.index;
      TrackedOwnsItself(w.engine.tracker, ev.request, ev.account, Result(ev.localId, "", "pending"));
      BeganKeepsOnce(w, max, w', ev.request, ev.account, ev.localId);
      forall c <- w'.engine.calls ensures Fits(c, w'.engine.tracker, w'.owner) {
        BeganFits(w, max, w', ev.request, ev.account, ev.localId, c);
      }
      forall k | 0 <= k < |w'.engine.calls| ensures w'.engine.calls[k].h < |w'.engine.tracker.records| {
        assert Fits(w'.engine.calls[k], w'.engine.tracker, w'.owner);
      }
    }
  }

  lemma RevisesTwice(t: Tracker, t': Tracker, t'': Tracker, calls: seq<Call>)
    requires Revises(t, t', calls) && Revises(t', t'', calls)
    ensures Revises(t, t'', calls)
  {
  }

  /** What remains after one call ended stays distinct and was there before. */
  lemma RestWasThere(e: Engine, n: nat)
    requires Valid(e) && n < |e.calls| && ExecutionRuns.Distinct(e.calls)
    ensures Valid(e.(calls := Without(e.calls, n))) && ExecutionRuns.Distinct(Without(e.calls, n))
    ensures forall c <- Without(e.calls, n) ::
      c in e.calls && (e.calls[n].Placing? && c.Placing? ==> c.h != e.calls[n].h)
  {
    ExecutionRuns.WithoutStaysValid(e, n);
    ExecutionRuns.WithoutStaysDistinct(e.calls, n);
    forall c <- Without(e.calls, n) ensures c in e.calls {
      ExecutionRuns.WithoutKeeps(e.calls, n, c);
    }
  }

  /** A cancellation that was refused asks the exchange about the order instead. */
  lemma RefusedKeepsInv(w: World, max: nat, w': World, n: nat)
    requires Inv(w, max) && n < |w.engine.calls| && !w.engine.calls[n].Placing?
    requires Revises(w.engine.tracker, w'.engine.tracker, w.engine.calls)
    requires var rest, c := Without(w.engine.calls, n), w.engine.calls[n];
      w'.engine.calls == rest || w'.engine.calls == rest + [Querying(c.h, c.account, c.orderId)]
    requires (forall k <- w.owner :: k in w'.owner) && w'.engine.executed == w.engine.executed
      && w'.placements == w.placements
    ensures Inv(w', max)
  {
    var rest, c := Without(w.engine.calls, n), w.engine.calls[n];
    RestWasThere(w.engine, n);
    assert c in w.engine.calls && Fits(c, w.engine.tracker, w.owner);
    RevisedStillFits(w.engine.tracker, w'.engine.tracker, w.engine.calls, w.owner, w'.owner, c);
    RevisionKeepsInv(w, max, w');
  }

  /** Whoever is being placed under the key of a call that places nothing is the order of that call. */
  lemma PlaceholderIsItsOwn(w: World, max: nat, c: Call, other: Call)
    requires Inv(w, max) && c in w.engine.calls && other in w.engine.calls && !c.Placing? && other.Placing?
    requires
      var key := (c.account, c.orderId);
      key in w.engine.tracker.orders && w.engine.tracker.orders[key] == other.h
    ensures other.h == c.h && w.engine.tracker.records[c.h].result.orderId == c.orderId
  {
    assert Fits(c, w.engine.tracker, w.owner) && Fits(other, w.engine.tracker, w.owner);
  }

  lemma CancelSentKeepsInv(w: World, max: nat, i: Input)
    requires Inv(w, max) && i.event.Resume? && Fair(w, max, i) && w.engine.calls[i.event.call].CancelSent?
    ensures Inv(ExecutionRuns.Next(w, i), max)
  {
    var w', c, t := ExecutionRuns.Next(w, i), w.engine.calls[i.event.call], w.engine.tracker;
    assert c in w.engine.calls;
    if i.event.answer.Ok? && t.MayBecome(c.h, Cancelled) {
      var t1, r := t.Became(c.h, Cancelled), t.records[c.h].result.(status := "cancelled");
      BecameRevises(t, c.h, Cancelled, w.engine.calls);
      forall other <- w.engine.calls | other.Placing? && (c.account, c.orderId) in t.orders
        && t.orders[(c.account, c.orderId)] == other.h
        ensures r.orderId == t1.records[other.h].result.orderId
      {
        PlaceholderIsItsOwn(w, max, c, other);
      }
      UpdatedRevises(t1, (c.account, c.orderId), r, Cancelled, w.engine.calls);
      RevisesTwice(t, t1, w'.engine.tracker, w.engine.calls);
    }
    RefusedKeepsInv(w, max, w', i.event.call);
  }

  lemma QueryingKeepsInv(w: World, max: nat, i: Input)
    requires Inv(w, max) && i.event.Resume? && Fair(w, max, i) && w.engine.calls[i.event.call].Querying?
    ensures Inv(ExecutionRuns.Next(w, i), max)
  {
    var w', c, t := ExecutionRuns.Next(w, i), w.engine.calls[i.event.call], w.engine.tracker;
    assert c in w.engine.calls;
    if i.event.answer.Ok? && t.MayBecome(c.h, MapExchangeStatus(i.event.answer.result.status)) {
      var r, s := i.event.answer.result, MapExchangeStatus(i.event.answer.result.status);
      var t1, key := t.Became(c.h, s), (c.account, c.orderId);
      BecameRevises(t, c.h, s, w.engine.calls);
      forall other <- w.engine.calls | other.Placing? && key in t.orders && t.orders[key] == other.h
        ensures r.orderId == t1.records[other.h].result.orderId
      {
        PlaceholderIsItsOwn(w, max, c, other);
        assert BeingPlaced(w.engine, t.orders[key]);
      }
      UpdatedRevises(t1, key, r, s, w.engine.calls);
      RevisesTwice(t, t1, w'.engine.tracker, w.engine.calls);
    }
    RefusedKeepsInv(w, max, w', i.event.call);
  }

  /** The end of a placement, by way of a tracker in which only its own key may have changed. */
  lemma PlacedKeepsInv(w: World, max: nat, t1: Tracker, w': World, n: nat, count: nat)
    requires Inv(w, max) && n < |w.engine.calls| && w.engine.calls[n].Placing? && count <= max
    requires Rooted(t1) && t1.index.Keys == w.engine.tracker.index.Keys && |t1.records| == |w.engine.tracker.records|
    requires forall k <- t1.orders :: k in w'.owner
    requires var rest := Without(w.engine.calls, n);
      && (forall c <- rest :: Fits(c, t1, w'.owner)) && Revises(t1, w'.engine.tracker, rest) && w'.engine.calls == rest
    requires w'.engine.executed == w.engine.executed
    requires w'.placements == ExecutionRuns.Counted(w.placements, w.engine.calls[n].request, count)
    ensures Inv(w', max)
  {
    var rest, c := Without(w.engine.calls, n), w.engine.calls[n];
    RestWasThere(w.engine, n);
    assert c in w.engine.calls && Fits(c, w.engine.tracker, w.owner);
    forall d <- rest ensures Fits(d, w'.engine.tracker, w'.owner) && (d.Placing? ==> d.request !in w'.placements) {
      RevisedStillFits(t1, w'.engine.tracker, rest, w'.owner, w'.owner, d);
      assert Fits(d, w.engine.tracker, w.owner);
    }
  }

  /** After the re-keying, whether the status is accepted or the order is marked failed. */
  lemma SettlingRevises(t: Tracker, h: nat, account: string, r: Result, calls: seq<Call>)
    requires t.Valid() && h < |t.records| && (account, r.orderId) in t.orders && t.orders[(account, r.orderId)] == h
    requires forall c <- calls :: c.Placing? ==> c.h != h
    requires forall c <- calls | c.Placing? && c.h < |t.records| ::
      var key := (account, t.records[h].result.orderId); key in t.orders && t.orders[key] == c.h ==>
        t.records[c.h].result.orderId == t.records[h].result.orderId
    ensures var s := MapExchangeStatus(r.status);
      Revises(t,
              if t.MayBecome(h, s) then t.Became(h, s).Updated((account, r.orderId), r, s)
              else PlaceFails(t, h, account),
              calls)
  {
    var s := MapExchangeStatus(r.status);
    if t.MayBecome(h, s) {
      BecameRevises(t, h, s, calls);
      UpdatedRevises(t.Became(h, s), (account, r.orderId), r, s, calls);
      RevisesTwice(t, t.Became(h, s), t.Became(h, s).Updated((account, r.orderId), r, s), calls);
    } else {
      FailureRevises(t, h, account, calls);
    }
  }

  lemma FailureRevises(t: Tracker, h: nat, account: string, calls: seq<Call>)
    requires t.Valid() && h < |t.records|
    requires forall c <- calls | c.Placing? && c.h < |t.records| ::
      var key := (account, t.records[h].result.orderId); key in t.orders && t.orders[key] == c.h ==>
        t.records[c.h].result.orderId == t.records[h].result.orderId
    ensures Revises(t, PlaceFails(t, h, account), calls)
  {
    if t.MayBecome(h, Failed) {
      var stored := t.records[h].result;
      BecameRevises(t, h, Failed, calls);
      UpdatedRevises(t.Became(h, Failed), (account, stored.orderId), stored.(status := "rejected"), Failed, calls);
      RevisesTwice(t, t.Became(h, Failed), PlaceFails(t, h, account), calls);
    }
  }

  /** The placement failed, or was reported under its own placeholder. */
  lemma UnchangedIdKeepsInv(w: World, max: nat, i: Input)
    requires Inv(w, max) && i.event.Resume? && Fair(w, max, i) && w.engine.calls[i.event.call].Placing?
    requires var c, a := w.engine.calls[i.event.call], i.event.answer;
      a.Ok? ==> a.result.orderId == w.engine.tracker.records[c.h].result.orderId
    ensures Inv(ExecutionRuns.Next(w, i), max)
  {
    var w', n, t := ExecutionRuns.Next(w, i), i.event.call, w.engine.tracker;
    var rest, c := Without(w.engine.calls, n), w.engine.calls[n];
    RestWasThere(w.engine, n);
    assert c in w.engine.calls && Fits(c, t, w.owner);
    assert forall d <- rest :: Fits(d, t, w.owner);
    if i.event.answer.Ok? {
      SettlingRevises(t, c.h, c.account, i.event.answer.result, rest);
    } else {
      FailureRevises(t, c.h, c.account, rest);
    }
    PlacedKeepsInv(w, max, t, w', n, |i.seen|);
  }

  /** The placement was reported under another id, which may name other orders too. */
  lemma NewIdKeepsInv(w: World, max: nat, i: Input)
    requires Inv(w, max) && i.event.Resume? && Fair(w, max, i) && w.engine.calls[i.event.call].Placing?
      && i.event.answer.Ok?
    requires i.event.answer.result.orderId != w.engine.tracker.records[w.engine.calls[i.event.call].h].result.orderId
    ensures Inv(ExecutionRuns.Next(w, i), max)
  {
    var w', n, t, r := ExecutionRuns.Next(w, i), i.event.call, w.engine.tracker, i.event.answer.result;
    var rest, c := Without(w.engine.calls, n), w.engine.calls[n];
    RestWasThere(w.engine, n);
    assert c in w.engine.calls && Fits(c, t, w.owner);
    var t1 := t.ReKeyed(c.account, t.records[c.h].result.orderId, r.orderId);
    ReKeyedKeepsRooted(t, c.h, c.request, c.account, r.orderId);
    forall d <- rest ensures Fits(d, t1, w'.owner) {
      assert Fits(d, t, w.owner);
      if d.Placing? {
        ReKeyedKeepsOwn(t, c.h, c.request, c.account, r.orderId, d.h, d.request, d.account);
      }
    }
    SettlingRevises(t1, c.h, c.account, r, rest);
    PlacedKeepsInv(w, max, t1, w', n, |i.seen|);
  }

  /** A query about an order that is still being placed, answered under another id, breaks the invariant: the
      order is stored under an id it no longer has. */
  lemma NotAsAskedBreaksInv(w: World, max: nat, i: Input)
    requires Inv(w, max) && Honest(w, max, i) && !AsAsked(w, i)
    ensures !Inv(ExecutionRuns.Next(w, i), max)
  {
    var w', c, t := ExecutionRuns.Next(w, i), w.engine.calls[i.event.call], w.engine.tracker;
    var key := (c.account, c.orderId);
    var placing :| placing in w.engine.calls && placing.Placing? && placing.h == t.orders[key];
    assert c in w.engine.calls && Fits(placing, t, w.owner) && Fits(c, t, w.owner);
    PlacingIsStillThere(w.engine, i.event.call, placing);
    assert w'.engine.calls == Without(w.engine.calls, i.event.call);
    assert placing in w'.engine.calls;
    var t' := w'.engine.tracker;
    assert t'.orders == t.orders && t'.records[placing.h].result == i.event.answer.result;
    assert !Own(t', placing.h, placing.request, placing.account);
    assert !Fits(placing, t', w'.owner);
  }

  lemma PlacingIsStillThere(e: Engine, n: nat, c: Call)
    requires Valid(e) && n < |e.calls| && !e.calls[n].Placing? && c in e.calls && c.Placing?
    ensures c in Without(e.calls, n)
  {
    var k :| 0 <= k < |e.calls| && e.calls[k] == c;
    assert Without(e.calls, n)[if k < n then k else k - 1] == c;
  }

  /** Of an honest step, the invariant asks exactly this. */
  lemma StepKeepsInvIff(w: World, max: nat, i: Input)
    requires Inv(w, max) && Honest(w, max, i)
    ensures Inv(ExecutionRuns.Next(w, i), max) <==> AsAsked(w, i)
  {
    if AsAsked(w, i) {
      StepKeepsInv(w, max, i);
    } else {
      NotAsAskedBreaksInv(w, max, i);
    }
  }

  lemma StepKeepsInv(w: World, max: nat, i: Input)
    requires Inv(w, max) && Fair(w, max, i)
    ensures Inv(ExecutionRuns.Next(w, i), max)
  {
    match i.event
    case Place(_, _, _, _) => PlaceKeepsInv(w, max, i);
    case Cancel(_, _) => CancelKeepsInv(w, max, i);
    case Sync(_, _) => SyncKeepsInv(w, max, i);
    case Sweep(_, _) => SweepKeepsInv(w, max, i);
    case Resume(n, a) =>
      var c := w.engine.calls[n];
      if c.CancelSent? {
        CancelSentKeepsInv(w, max, i);
      } else if c.Querying? {
        QueryingKeepsInv(w, max, i);
      } else if a.Ok? && a.result.orderId != w.engine.tracker.records[c.h].result.orderId {
        NewIdKeepsInv(w, max, i);
      } else {
        UnchangedIdKeepsInv(w, max, i);
      }
  }

  // ------------------------------------------------------------------ whole runs

  ghost predicate Behaviour(ws: seq<World>, inputs: seq<Input>, max: nat) {
    && |ws| == |inputs| + 1 && ws[0] == ExecutionRuns.Start(ws[0].engine.adapters)
    && forall k | 0 <= k < |inputs| ::
         Valid(ws[k].engine) && Fair(ws[k], max, inputs[k]) && ws[k + 1] == ExecutionRuns.Next(ws[k], inputs[k])
  }

  /** A run of honest steps keeps the invariant throughout exactly if every query in it is answered as asked. */
  lemma {:induction false} RunKeepsInvIff(ws: seq<World>, inputs: seq<Input>, max: nat)
    requires |ws| == |inputs| + 1 && ws[0] == ExecutionRuns.Start(ws[0].engine.adapters)
    requires forall k | 0 <= k < |inputs| ::
      Valid(ws[k].engine) && Honest(ws[k], max, inputs[k]) && ws[k + 1] == ExecutionRuns.Next(ws[k], inputs[k])
    ensures (forall w <- ws :: Inv(w, max)) <==> forall k | 0 <= k < |inputs| :: AsAsked(ws[k], inputs[k])
  {
    if forall w <- ws :: Inv(w, max) {
      forall k | 0 <= k < |inputs| ensures AsAsked(ws[k], inputs[k]) {
        assert ws[k] in ws && ws[k + 1] in ws;
        StepKeepsInvIff(ws[k], max, inputs[k]);
      }
    }
    if forall k | 0 <= k < |inputs| :: AsAsked(ws[k], inputs[k]) {
      forall w <- ws ensures Inv(w, max) {
        var k :| 0 <= k < |ws| && ws[k] == w;
        RunKeepsInv(ws, inputs, max, k);
      }
    }
  }

  lemma {:induction false} RunKeepsInv(ws: seq<World>, inputs: seq<Input>, max: nat, k: nat)
    requires Behaviour(ws, inputs, max) && k < |ws|
    ensures Inv(ws[k], max)
  {
    if k > 0 {
      RunKeepsInv(ws, inputs, max, k - 1);
      StepKeepsInv(ws[k - 1], max, inputs[k - 1]);
    }
  }

  /** At most once: however placements interleave, with each other and with cancellations, queries and
      sweeps, no request is handed to the executor twice, and the adapter is asked to place it at most
      `max` times, whatever ids the exchange reports for them. */
  lemma AtMostOnce(ws: seq<World>, inputs: seq<Input>, max: nat, k: nat)
    requires Behaviour(ws, inputs, max) && k < |ws|
    ensures forall i, j | 0 <= i < j < |ws[k].engine.executed| :: ws[k].engine.executed[i] != ws[k].engine.executed[j]
    ensures forall r <- ws[k].placements :: ws[k].placements[r] <= max
  {
    RunKeepsInv(ws, inputs, max, k);
  }

  /** Asking again for a request that was executed sends nothing. */
  lemma RepeatSendsNothing(ws: seq<World>, inputs: seq<Input>, max: nat, k: nat, request: string, account: string,
      valid: bool, localId: string)
    requires Behaviour(ws, inputs, max) && k < |ws| && request in ws[k].engine.executed
    ensures Valid(ws[k].engine)
    ensures var again := PlaceBegins(ws[k].engine, request, account, valid, localId);
      again.engine == ws[k].engine && again.reply.Returned?
  {
    RunKeepsInv(ws, inputs, max, k);
  }
}
