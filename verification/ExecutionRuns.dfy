/** What every interleaving of the execution engine keeps: an order is executed at most once, every
    request resolves to its own order, and every order moves along the lifecycle table. */
module ExecutionRuns {
  import opened Options
  import opened Orders
  import opened OrderExecutor
  import opened Execution

  /** An event, with the adapter calls behind it when it ends an `execute`. */
  datatype Input = Input(event: Event, seen: seq<Attempt>)

  /** The engine, which order every order id ever named, and the placements made per request. */
  datatype World = World(engine: Engine, owner: map<Key, nat>, placements: map<string, nat>)

  ghost function Start(adapters: set<string>): World {
    World(Engine(Tracker([], map[], map[]), adapters, [], []), map[], map[])
  }

  /** Order ids are never shared: a new local id is unused, and an id the exchange reports for an order
      has not named another order of the account. */
  ghost predicate Fair(w: World, max: nat, i: Input) {
    match i.event
    case Place(_, account, _, localId) => (account, localId) !in w.owner
    case Resume(n, a) =>
      && n < |w.engine.calls|
      && (w.engine.calls[n].Placing? ==> Executed(max, i.seen, if a.Ok? then Some(a.result) else None))
      && (Names(w, i) ==> Named(w, i) !in w.owner || w.owner[Named(w, i)] == w.engine.calls[n].h)
    case _ => true
  }

  ghost predicate Names(w: World, i: Input) {
    i.event.Resume? && i.event.call < |w.engine.calls| && i.event.answer.Ok?
      && !w.engine.calls[i.event.call].CancelSent?
  }

  ghost function Named(w: World, i: Input): Key
    requires Names(w, i)
  {
    (w.engine.calls[i.event.call].account, i.event.answer.result.orderId)
  }

  ghost function Next(w: World, i: Input): World
    requires Valid(w.engine) && (i.event.Resume? ==> i.event.call < |w.engine.calls|)
  {
    var e := Step(w.engine, i.event).engine;
    var owner :=
      if Names(w, i) then w.owner[Named(w, i) := w.engine.calls[i.event.call].h]
      else if |e.tracker.records| > |w.engine.tracker.records| then
        w.owner[(i.event.account, i.event.localId) := |w.engine.tracker.records|]
      else w.owner;
    var placements :=
      if i.event.Resume? && w.engine.calls[i.event.call].Placing? then
        Counted(w.placements, w.engine.calls[i.event.call].request, |i.seen|)
      else w.placements;
    World(e, owner, placements)
  }

  ghost function Counted(m: map<string, nat>, request: string, n: nat): map<string, nat> {
    m[request := (if request in m then m[request] else 0) + n]
  }

  // ------------------------------------------------------------------ the tracker's invariant

  ghost predicate Owned(t: Tracker, owner: map<Key, nat>) {
    && t.Valid()
    && (forall k <- t.orders :: k in owner && owner[k] == t.orders[k] && k.0 == t.records[t.orders[k]].account)
    && (forall h | 0 <= h < |t.records| :: StoredKey(t, h) in owner && owner[StoredKey(t, h)] == h)
  }

  ghost function StoredKey(t: Tracker, h: nat): Key
    requires h < |t.records|
  {
    (t.records[h].account, t.records[h].result.orderId)
  }

  /** Every indexed request resolves to the order that carries it, and every order is indexed. */
  ghost predicate Resolves(t: Tracker) {
    && t.Valid()
    && (forall r <- t.index :: t.index[r] in t.orders && t.records[t.orders[t.index[r]]].request == r)
    && (forall h | 0 <= h < |t.records| ::
          t.records[h].request in t.index && t.orders[t.index[t.records[h].request]] == h)
  }

  lemma TrackedKeepsOwned(t: Tracker, owner: map<Key, nat>, request: string, account: string, r: Result, s: Status)
    requires Owned(t, owner) && (account, r.orderId) !in owner
    ensures Owned(t.Tracked(request, account, r, s), owner[(account, r.orderId) := |t.records|])
  {
    var t', key := t.Tracked(request, account, r, s), (account, r.orderId);
    assert StoredKey(t', |t.records|) == key;
    forall h | 0 <= h < |t.records|
      ensures StoredKey(t', h) == StoredKey(t, h) && StoredKey(t, h) in owner && owner[StoredKey(t, h)] == h
    {
    }
  }

  lemma TrackedKeepsResolves(t: Tracker, request: string, account: string, r: Result, s: Status)
    requires Resolves(t) && request !in t.index && (account, r.orderId) !in t.orders
    ensures Resolves(t.Tracked(request, account, r, s))
  {
    var t', h := t.Tracked(request, account, r, s), |t.records|;
    assert t'.records[h].request == request && t'.index[request] == (account, r.orderId);
    forall q <- t'.index ensures t'.index[q] in t'.orders && t'.records[t'.orders[t'.index[q]]].request == q {
      if q != request {
        assert t.index[q] in t.orders && t'.index[q] == t.index[q];
      }
    }
    forall g | 0 <= g < |t.records|
      ensures t'.records[g].request in t'.index && t'.orders[t'.index[t'.records[g].request]] == g
    {
      assert t'.records[g] == t.records[g] && t.records[g].request in t.index;
      assert t.index[t.records[g].request] in t.orders;
    }
  }

  lemma TrackedKeeps(t: Tracker, owner: map<Key, nat>, request: string, account: string, r: Result, s: Status)
    requires Owned(t, owner) && Resolves(t) && t.ByRequest(request).None? && (account, r.orderId) !in owner
    ensures Owned(t.Tracked(request, account, r, s), owner[(account, r.orderId) := |t.records|])
    ensures Resolves(t.Tracked(request, account, r, s))
  {
    TrackedKeepsOwned(t, owner, request, account, r, s);
    assert request !in t.index;
    TrackedKeepsResolves(t, request, account, r, s);
  }

  lemma BecameKeeps(t: Tracker, owner: map<Key, nat>, h: nat, s: Status)
    requires Owned(t, owner) && Resolves(t) && h < |t.records|
    ensures Owned(t.Became(h, s), owner) && Resolves(t.Became(h, s))
  {
    var t' := t.Became(h, s);
    forall g | 0 <= g < |t'.records|
      ensures StoredKey(t', g) == StoredKey(t, g) && t'.records[g].request == t.records[g].request
    {
    }
  }

  lemma UpdatedKeeps(t: Tracker, owner: map<Key, nat>, key: Key, r: Result, s: Status, h: nat)
    requires Owned(t, owner) && Resolves(t) && h < |t.records| && key in owner && owner[key] == h
    requires (t.records[h].account, r.orderId) in owner && owner[(t.records[h].account, r.orderId)] == h
    ensures Owned(t.Updated(key, r, s), owner) && Resolves(t.Updated(key, r, s))
  {
    var t' := t.Updated(key, r, s);
    forall g | 0 <= g < |t'.records|
      ensures t'.records[g].request == t.records[g].request && t'.records[g].account == t.records[g].account
      ensures StoredKey(t', g) in owner && owner[StoredKey(t', g)] == g
    {
      assert StoredKey(t, g) in owner;
    }
  }

  /** Re-keying keeps every request resolvable exactly when no other order holds the new key. */
  lemma ReKeyedResolvesIff(t: Tracker, account: string, old_: string, new_: string)
    requires Resolves(t) && (account, old_) in t.orders
    requires forall k, k' | k in t.orders && k' in t.orders && t.orders[k] == t.orders[k'] :: k == k'
    ensures Resolves(t.ReKeyed(account, old_, new_)) <==>
            ((account, new_) in t.orders ==> t.orders[(account, new_)] == t.orders[(account, old_)])
  {
    var h, t' := t.orders[(account, old_)], t.ReKeyed(account, old_, new_);
    var key, r := (account, new_), t.records[h].request;
    if key in t.orders && t.orders[key] != h {
      var g := t.orders[key];
      assert t.index[t.records[g].request] == key;
      assert t'.orders[key] == h && t'.index[t.records[g].request] == key;
    } else {
      forall q <- t'.index ensures t'.index[q] in t'.orders && t'.records[t'.orders[t'.index[q]]].request == q {
        if q != r {
          assert t.index[q] in t.orders && t.orders[t.index[q]] != h;
        }
      }
      forall g | 0 <= g < |t'.records|
        ensures t'.records[g].request in t'.index && t'.orders[t'.index[t'.records[g].request]] == g
      {
        if g != h {
          assert t.orders[t.index[t.records[g].request]] == g;
        }
      }
    }
  }

  lemma ReKeyedKeepsOwned(t: Tracker, owner: map<Key, nat>, h: nat, new_: string)
    requires Owned(t, owner) && h < |t.records|
    requires var key := (t.records[h].account, new_); key !in owner || owner[key] == h
    ensures var t' := t.ReKeyed(t.records[h].account, t.records[h].result.orderId, new_);
      Owned(t', owner[(t.records[h].account, new_) := h]) && t'.records == t.records
  {
    var account, old_ := t.records[h].account, t.records[h].result.orderId;
    var t' := t.ReKeyed(account, old_, new_);
    assert StoredKey(t, h) == (account, old_);
    forall g | 0 <= g < |t.records|
      ensures StoredKey(t', g) == StoredKey(t, g) && StoredKey(t, g) in owner && owner[StoredKey(t, g)] == g
    {
    }
  }

  lemma ReKeyedKeepsResolves(t: Tracker, owner: map<Key, nat>, h: nat, new_: string)
    requires Owned(t, owner) && Resolves(t) && h < |t.records|
    requires var key := (t.records[h].account, new_); key !in owner || owner[key] == h
    ensures Resolves(t.ReKeyed(t.records[h].account, t.records[h].result.orderId, new_))
  {
    var account, old_ := t.records[h].account, t.records[h].result.orderId;
    var t' := t.ReKeyed(account, old_, new_);
    assert StoredKey(t, h) == (account, old_);
    if (account, old_) in t.orders {
      assert t.orders[(account, old_)] == h;
      forall q <- t'.index ensures t'.index[q] in t'.orders && t'.records[t'.orders[t'.index[q]]].request == q {
        if q != t.records[h].request {
          assert t.index[q] in t.orders && t.orders[t.index[q]] != h;
        }
      }
      forall g | 0 <= g < |t'.records|
        ensures t'.records[g].request in t'.index && t'.orders[t'.index[t'.records[g].request]] == g
      {
        if g != h {
          assert t.orders[t.index[t.records[g].request]] == g;
        }
      }
    }
  }

  lemma ReKeyedKeeps(t: Tracker, owner: map<Key, nat>, h: nat, new_: string)
    requires Owned(t, owner) && Resolves(t) && h < |t.records|
    requires var key := (t.records[h].account, new_); key !in owner || owner[key] == h
    ensures var t' := t.ReKeyed(t.records[h].account, t.records[h].result.orderId, new_);
      && Owned(t', owner[(t.records[h].account, new_) := h]) && Resolves(t') && t'.records == t.records
  {
    ReKeyedKeepsOwned(t, owner, h, new_);
    ReKeyedKeepsResolves(t, owner, h, new_);
  }

  // ------------------------------------------------------------------ what each operation keeps

  /** No order changes identity, and each status stays or takes one edge of the lifecycle table. */
  ghost predicate Evolves(t: Tracker, t': Tracker) {
    && |t.records| <= |t'.records|
    && forall h | 0 <= h < |t.records| ::
         && t'.records[h].request == t.records[h].request && t'.records[h].account == t.records[h].account
         && (t'.records[h].status == t.records[h].status || t'.records[h].status in Transitions(t.records[h].status))
  }

  /** Moving an order along an edge and storing the exchange's answer under one of its keys. */
  lemma SettledKeeps(t: Tracker, owner: map<Key, nat>, h: nat, orderId: string, r: Result, s: Status)
    requires Owned(t, owner) && Resolves(t) && h < |t.records| && t.MayBecome(h, s)
    requires var key := (t.records[h].account, orderId); key in owner && owner[key] == h
    requires var key := (t.records[h].account, r.orderId); key in owner && owner[key] == h
    ensures var t' := t.Became(h, s).Updated((t.records[h].account, orderId), r, s);
      Owned(t', owner) && Resolves(t') && Evolves(t, t') && |t'.records| == |t.records| && t'.records[h].status == s
  {
    BecameKeeps(t, owner, h, s);
    UpdatedKeeps(t.Became(h, s), owner, (t.records[h].account, orderId), r, s, h);
  }

  lemma FailureKeeps(t: Tracker, owner: map<Key, nat>, h: nat)
    requires Owned(t, owner) && Resolves(t) && h < |t.records|
    ensures var t' := PlaceFails(t, h, t.records[h].account);
      Owned(t', owner) && Resolves(t') && Evolves(t, t') && |t'.records| == |t.records|
  {
    assert StoredKey(t, h) in owner && owner[StoredKey(t, h)] == h;
    if t.MayBecome(h, Failed) {
      SettledKeeps(t, owner, h, t.records[h].result.orderId, t.records[h].result.(status := "rejected"), Failed);
    }
  }

  lemma PlaceEndsKeeps(e: Engine, owner: map<Key, nat>, h: nat, a: Answer)
    requires Valid(e) && Owned(e.tracker, owner) && Resolves(e.tracker) && h < |e.tracker.records|
    requires a.Ok? ==> var key := (e.tracker.records[h].account, a.result.orderId); key !in owner || owner[key] == h
    ensures var account, e' := e.tracker.records[h].account, PlaceEnds(e, h, e.tracker.records[h].account, a).engine;
      && Owned(e'.tracker, if a.Ok? then owner[(account, a.result.orderId) := h] else owner)
      && Resolves(e'.tracker) && Evolves(e.tracker, e'.tracker) && |e'.tracker.records| == |e.tracker.records|
  {
    var account := e.tracker.records[h].account;
    if !a.Ok? {
      FailureKeeps(e.tracker, owner, h);
    } else {
      ReKeyedKeeps(e.tracker, owner, h, a.result.orderId);
      var owner' := owner[(account, a.result.orderId) := h];
      OwnerGrows(e.tracker, owner, (account, a.result.orderId), h);
      var t, status := PlaceReKeys(e.tracker, h, account, a.result), MapExchangeStatus(a.result.status);
      if t.MayBecome(h, status) {
        SettledKeeps(t, owner', h, a.result.orderId, a.result, status);
      } else {
        FailureKeeps(t, owner', h);
      }
    }
  }

  lemma OwnerGrows(t: Tracker, owner: map<Key, nat>, key: Key, h: nat)
    requires Owned(t, owner) && (key !in owner || owner[key] == h)
    ensures Owned(t, owner[key := h])
  {
    forall g | 0 <= g < |t.records|
      ensures StoredKey(t, g) in owner[key := h] && owner[key := h][StoredKey(t, g)] == g
    {
    }
  }

  lemma QueryEndsKeeps(e: Engine, owner: map<Key, nat>, h: nat, orderId: string, a: Answer)
    requires Valid(e) && Owned(e.tracker, owner) && Resolves(e.tracker) && h < |e.tracker.records|
    requires var key := (e.tracker.records[h].account, orderId); key in owner && owner[key] == h
    requires a.Ok? ==> var key := (e.tracker.records[h].account, a.result.orderId); key !in owner || owner[key] == h
    ensures
      var account := e.tracker.records[h].account;
      var e' := QueryEnds(e, h, account, orderId, a).engine;
      && Owned(e'.tracker, if a.Ok? then owner[(account, a.result.orderId) := h] else owner)
      && Resolves(e'.tracker) && Evolves(e.tracker, e'.tracker) && |e'.tracker.records| == |e.tracker.records|
  {
    if a.Ok? {
      var key := (e.tracker.records[h].account, a.result.orderId);
      OwnerGrows(e.tracker, owner, key, h);
      var status := MapExchangeStatus(a.result.status);
      if e.tracker.MayBecome(h, status) {
        SettledKeeps(e.tracker, owner[key := h], h, orderId, a.result, status);
      }
    }
  }

  lemma CancelEndsKeeps(e: Engine, owner: map<Key, nat>, h: nat, orderId: string, a: Answer)
    requires Valid(e) && Owned(e.tracker, owner) && Resolves(e.tracker) && h < |e.tracker.records|
    requires var key := (e.tracker.records[h].account, orderId); key in owner && owner[key] == h
    ensures var e' := CancelEnds(e, h, e.tracker.records[h].account, orderId, a).engine;
      && Owned(e'.tracker, owner) && Resolves(e'.tracker) && Evolves(e.tracker, e'.tracker)
      && |e'.tracker.records| == |e.tracker.records|
  {
    assert StoredKey(e.tracker, h) in owner && owner[StoredKey(e.tracker, h)] == h;
    if a.Ok? && e.tracker.MayBecome(h, Cancelled) {
      SettledKeeps(e.tracker, owner, h, orderId, e.tracker.records[h].result.(status := "cancelled"), Cancelled);
    }
  }

  /** A new order, tracked and submitted. */
  lemma SubmittedKeeps(t: Tracker, owner: map<Key, nat>, request: string, account: string, r: Result)
    requires Owned(t, owner) && Resolves(t) && t.ByRequest(request).None? && (account, r.orderId) !in owner
    ensures var t' := t.Tracked(request, account, r, Pending).Became(|t.records|, Submitting);
      && Evolves(t, t') && Resolves(t') && Owned(t', owner[(account, r.orderId) := |t.records|])
      && |t'.records| == |t.records| + 1
  {
    TrackedKeeps(t, owner, request, account, r, Pending);
    BecameKeeps(t.Tracked(request, account, r, Pending), owner[(account, r.orderId) := |t.records|], |t.records|,
                Submitting);
  }

  lemma PlaceBeginsKeeps(e: Engine, owner: map<Key, nat>, request: string, account: string, valid: bool,
      localId: string)
    requires Valid(e) && Owned(e.tracker, owner) && Resolves(e.tracker) && (account, localId) !in owner
    ensures var e' := PlaceBegins(e, request, account, valid, localId).engine;
      && Evolves(e.tracker, e'.tracker) && Resolves(e'.tracker)
      && Owned(e'.tracker, if |e'.tracker.records| > |e.tracker.records|
                           then owner[(account, localId) := |e.tracker.records|] else owner)
  {
    if e.tracker.ByRequest(request).None? && account in e.adapters && valid {
      SubmittedKeeps(e.tracker, owner, request, account, Result(localId, "", "pending"));
    }
  }

  // ------------------------------------------------------------------ the invariant of a run

  ghost predicate Fits(c: Call, t: Tracker, owner: map<Key, nat>) {
    && c.h < |t.records| && c.account == t.records[c.h].account
    && (c.Placing? ==> c.request == t.records[c.h].request)
    && (!c.Placing? ==> (c.account, c.orderId) in owner && owner[(c.account, c.orderId)] == c.h)
  }

  /** No order is being placed by two coroutines. */
  ghost predicate Distinct(calls: seq<Call>) {
    forall i, j | 0 <= i < j < |calls| && calls[i].Placing? && calls[j].Placing? :: calls[i].h != calls[j].h
  }

  ghost predicate CallsFit(e: Engine, owner: map<Key, nat>) {
    Valid(e) && Distinct(e.calls) && forall c <- e.calls :: Fits(c, e.tracker, owner)
  }

  ghost predicate Placed(w: World, max: nat) {
    && (forall c <- w.engine.calls :: c.Placing? ==> c.request !in w.placements)
    && (forall r <- w.placements :: w.placements[r] <= max && r in w.engine.tracker.index)
  }

  ghost predicate Inv(w: World, max: nat) {
    && CallsFit(w.engine, w.owner) && Owned(w.engine.tracker, w.owner) && Resolves(w.engine.tracker) && Placed(w, max)
    && |w.engine.executed| == |w.engine.tracker.records|
    && forall h | 0 <= h < |w.engine.executed| :: w.engine.executed[h] == w.engine.tracker.records[h].request
  }

  lemma ResumeKeepsTracker(w: World, max: nat, i: Input)
    requires Inv(w, max) && Fair(w, max, i) && i.event.Resume?
    ensures var w' := Next(w, i);
      && Owned(w'.engine.tracker, w'.owner) && Resolves(w'.engine.tracker)
      && Evolves(w.engine.tracker, w'.engine.tracker) && |w'.engine.tracker.records| == |w.engine.tracker.records|
  {
    var c := w.engine.calls[i.event.call];
    var e := w.engine.(calls := Without(w.engine.calls, i.event.call));
    assert c in w.engine.calls;
    assert Fits(c, w.engine.tracker, w.owner);
    assert c.account == e.tracker.records[c.h].account;
    assert Names(w, i) ==> Named(w, i) == (e.tracker.records[c.h].account, i.event.answer.result.orderId);
    WithoutStaysValid(w.engine, i.event.call);
    match c
    case Placing(h, _, _) => PlaceEndsKeeps(e, w.owner, h, i.event.answer);
    case CancelSent(h, _, orderId) => CancelEndsKeeps(e, w.owner, h, orderId, i.event.answer);
    case Querying(h, _, orderId) => QueryEndsKeeps(e, w.owner, h, orderId, i.event.answer);
  }

  lemma WithoutStaysValid(e: Engine, i: nat)
    requires Valid(e) && i < |e.calls|
    ensures Valid(e.(calls := Without(e.calls, i)))
  {
    var rest := Without(e.calls, i);
    forall j | 0 <= j < |rest| ensures rest[j].h < |e.tracker.records| {
      assert rest[j] == e.calls[if j < i then j else j + 1];
    }
  }

  lemma WithoutKeeps(calls: seq<Call>, i: nat, c: Call)
    requires i < |calls| && c in Without(calls, i)
    ensures c in calls
  {
  }

  /** Handles of waiting placements stay distinct when one call ends. */
  lemma WithoutStaysDistinct(calls: seq<Call>, i: nat)
    requires i < |calls| && Distinct(calls)
    ensures Distinct(Without(calls, i))
    ensures calls[i].Placing? ==> forall c <- Without(calls, i) :: c.Placing? ==> c.h != calls[i].h
  {
    var rest := Without(calls, i);
    forall j | 0 <= j < |rest| ensures rest[j] == calls[if j < i then j else j + 1] {
    }
  }

  /** Ids keep their owner, whatever else is learnt. */
  ghost predicate Learns(owner: map<Key, nat>, owner': map<Key, nat>) {
    forall k <- owner :: k in owner' && owner'[k] == owner[k]
  }

  /** The calls that go on waiting still fit. */
  lemma CallsStayFit(e: Engine, owner: map<Key, nat>, e': Engine, owner': map<Key, nat>)
    requires CallsFit(e, owner) && Evolves(e.tracker, e'.tracker) && Learns(owner, owner')
    requires e'.tracker.Valid() && Distinct(e'.calls)
    requires forall c <- e'.calls :: c in e.calls || Fits(c, e'.tracker, owner')
    ensures CallsFit(e', owner')
  {
    forall c <- e'.calls ensures Fits(c, e'.tracker, owner') {
      if c in e.calls {
        assert Fits(c, e.tracker, owner);
      }
    }
    forall i | 0 <= i < |e'.calls| ensures e'.calls[i].h < |e'.tracker.records| {
      assert e'.calls[i] in e'.calls;
    }
  }

  lemma IndexOnlyGrows(t: Tracker, t': Tracker, r: string)
    requires Resolves(t) && Resolves(t') && Evolves(t, t') && r in t.index
    ensures r in t'.index
  {
    var h := t.orders[t.index[r]];
    assert t'.records[h].request == r;
  }

  lemma ExecutedStays(w: World, max: nat, w': World)
    requires Inv(w, max) && Evolves(w.engine.tracker, w'.engine.tracker)
    requires |w'.engine.tracker.records| == |w.engine.tracker.records| && w'.engine.executed == w.engine.executed
    ensures forall h | 0 <= h < |w'.engine.executed| :: w'.engine.executed[h] == w'.engine.tracker.records[h].request
  {
  }

  /** Besides the tracker, ending a call removes it, or lets it ask the exchange about its order. */
  ghost predicate Ended(e: Engine, e': Engine, n: nat)
    requires n < |e.calls|
  {
    var rest, c := Without(e.calls, n), e.calls[n];
    && e'.executed == e.executed
    && (e'.calls == rest || (c.CancelSent? && e'.calls == rest + [Querying(c.h, c.account, c.orderId)]))
  }

  lemma ResumeShape(w: World, i: Input)
    requires Valid(w.engine) && i.event.Resume? && i.event.call < |w.engine.calls|
    requires Names(w, i) ==> Named(w, i) !in w.owner || w.owner[Named(w, i)] == w.engine.calls[i.event.call].h
    ensures Ended(w.engine, Next(w, i).engine, i.event.call) && Learns(w.owner, Next(w, i).owner)
  {
  }

  lemma CallsAfterEnd(e: Engine, owner: map<Key, nat>, e': Engine, owner': map<Key, nat>, n: nat)
    requires CallsFit(e, owner) && n < |e.calls| && Ended(e, e', n)
    requires Evolves(e.tracker, e'.tracker) && Learns(owner, owner') && e'.tracker.Valid()
    ensures CallsFit(e', owner')
  {
    var rest, c := Without(e.calls, n), e.calls[n];
    WithoutStaysDistinct(e.calls, n);
    assert c in e.calls && Fits(c, e.tracker, owner);
    forall d <- e'.calls ensures d in e.calls || Fits(d, e'.tracker, owner') {
      if d in rest {
        WithoutKeeps(e.calls, n, d);
      }
    }
    CallsStayFit(e, owner, e', owner');
  }

  lemma PlacedAfterEnd(w: World, max: nat, w': World, n: nat, count: nat)
    requires Inv(w, max) && n < |w.engine.calls| && Ended(w.engine, w'.engine, n) && count <= max
    requires Resolves(w'.engine.tracker) && Evolves(w.engine.tracker, w'.engine.tracker)
    requires var c := w.engine.calls[n];
      w'.placements == if c.Placing? then Counted(w.placements, c.request, count) else w.placements
    ensures Placed(w', max)
  {
    var rest, c := Without(w.engine.calls, n), w.engine.calls[n];
    assert c in w.engine.calls && Fits(c, w.engine.tracker, w.owner);
    WithoutStaysDistinct(w.engine.calls, n);
    forall d <- w'.engine.calls | d.Placing? ensures d.request !in w'.placements {
      assert d in rest;
      WithoutKeeps(w.engine.calls, n, d);
      assert Fits(d, w.engine.tracker, w.owner);
      assert w.engine.tracker.orders[w.engine.tracker.index[d.request]] == d.h;
    }
    forall r <- w'.placements ensures w'.placements[r] <= max && r in w'.engine.tracker.index {
      assert r in w.engine.tracker.index;
      IndexOnlyGrows(w.engine.tracker, w'.engine.tracker, r);
    }
  }

  lemma ResumeKeepsInv(w: World, max: nat, i: Input)
    requires Inv(w, max) && Fair(w, max, i) && i.event.Resume?
    ensures Inv(Next(w, i), max) && Evolves(w.engine.tracker, Next(w, i).engine.tracker)
  {
    var w' := Next(w, i);
    ResumeKeepsTracker(w, max, i);
    ResumeShape(w, i);
    CallsAfterEnd(w.engine, w.owner, w'.engine, w'.owner, i.event.call);
    PlacedAfterEnd(w, max, w', i.event.call, if w.engine.calls[i.event.call].Placing? then |i.seen| else 0);
    ExecutedStays(w, max, w');
  }

  /** What a tracked order adds to the engine. */
  ghost predicate Began(e: Engine, e': Engine, request: string, account: string) {
    var h := |e.tracker.records|;
    && |e'.tracker.records| == h + 1
    && e'.tracker.records[h].request == request && e'.tracker.records[h].account == account
    && e'.calls == e.calls + [Placing(h, request, account)] && e'.executed == e.executed + [request]
  }

  lemma PlaceShape(e: Engine, request: string, account: string, valid: bool, localId: string)
    requires Valid(e)
    ensures var e' := PlaceBegins(e, request, account, valid, localId).engine;
      e' == e || (e.tracker.ByRequest(request).None? && Began(e, e', request, account))
  {
  }

  lemma BeganCallsFit(w: World, max: nat, w': World, request: string, account: string)
    requires Inv(w, max) && Began(w.engine, w'.engine, request, account)
    requires Evolves(w.engine.tracker, w'.engine.tracker) && Learns(w.owner, w'.owner) && w'.engine.tracker.Valid()
    ensures CallsFit(w'.engine, w'.owner)
  {
    var e, e' := w.engine, w'.engine;
    forall d <- e.calls ensures d.h < |e.tracker.records| {
      assert Fits(d, e.tracker, w.owner);
    }
    assert forall i | 0 <= i < |e.calls| :: e.calls[i] in e.calls;
    CallsStayFit(e, w.owner, e', w'.owner);
  }

  lemma BeganExecutes(w: World, max: nat, w': World, request: string, account: string)
    requires Inv(w, max) && Began(w.engine, w'.engine, request, account)
    requires Evolves(w.engine.tracker, w'.engine.tracker)
    ensures |w'.engine.executed| == |w'.engine.tracker.records|
    ensures forall h | 0 <= h < |w'.engine.executed| :: w'.engine.executed[h] == w'.engine.tracker.records[h].request
  {
  }

  lemma BeganKeepsInv(w: World, max: nat, w': World, request: string, account: string)
    requires Inv(w, max) && Began(w.engine, w'.engine, request, account) && w.engine.tracker.ByRequest(request).None?
    requires Evolves(w.engine.tracker, w'.engine.tracker) && Learns(w.owner, w'.owner) && w'.placements == w.placements
    requires Owned(w'.engine.tracker, w'.owner) && Resolves(w'.engine.tracker)
    ensures Inv(w', max)
  {
    BeganCallsFit(w, max, w', request, account);
    BeganExecutes(w, max, w', request, account);
    assert request !in w.placements;
    forall r <- w'.placements ensures r in w'.engine.tracker.index {
      IndexOnlyGrows(w.engine.tracker, w'.engine.tracker, r);
    }
  }

  lemma PlaceKeepsInv(w: World, max: nat, i: Input)
    requires Inv(w, max) && Fair(w, max, i) && i.event.Place?
    ensures Inv(Next(w, i), max) && Evolves(w.engine.tracker, Next(w, i).engine.tracker)
  {
    PlaceBeginsKeeps(w.engine, w.owner, i.event.request, i.event.account, i.event.valid, i.event.localId);
    PlaceShape(w.engine, i.event.request, i.event.account, i.event.valid, i.event.localId);
    if Next(w, i).engine != w.engine {
      BeganKeepsInv(w, max, Next(w, i), i.event.request, i.event.account);
    }
  }

  /** A call that starts to wait, on an order whose status may have moved, keeps everything. */
  lemma WaitingKeepsInv(w: World, max: nat, w': World, c: Call)
    requires Inv(w, max) && !c.Placing? && Fits(c, w'.engine.tracker, w.owner)
    requires w'.owner == w.owner && w'.placements == w.placements && w'.engine.executed == w.engine.executed
    requires w'.engine.calls == w.engine.calls + [c] && w'.engine.tracker.index == w.engine.tracker.index
    requires Owned(w'.engine.tracker, w.owner) && Resolves(w'.engine.tracker)
      && Evolves(w.engine.tracker, w'.engine.tracker)
    requires |w'.engine.tracker.records| == |w.engine.tracker.records|
    ensures Inv(w', max)
  {
    CallsStayFit(w.engine, w.owner, w'.engine, w'.owner);
    ExecutedStays(w, max, w');
  }

  /** An order that goes to CANCELLING, and the coroutine that then waits. */
  lemma CancellingKeepsInv(w: World, max: nat, w': World, h: nat, account: string, orderId: string)
    requires Inv(w, max) && w.engine.tracker.Get((account, orderId)) == Some(h)
    requires h < |w.engine.tracker.records| && w.engine.tracker.MayBecome(h, Cancelling)
    requires w'.engine.tracker == w.engine.tracker.Became(h, Cancelling)
    requires w'.engine.calls == w.engine.calls + [CancelSent(h, account, orderId)]
    requires w'.owner == w.owner && w'.placements == w.placements && w'.engine.executed == w.engine.executed
    ensures Inv(w', max) && Evolves(w.engine.tracker, w'.engine.tracker)
  {
    BecameKeeps(w.engine.tracker, w.owner, h, Cancelling);
    WaitingKeepsInv(w, max, w', CancelSent(h, account, orderId));
  }

  lemma CancelKeepsInv(w: World, max: nat, i: Input)
    requires Inv(w, max) && i.event.Cancel?
    ensures Inv(Next(w, i), max) && Evolves(w.engine.tracker, Next(w, i).engine.tracker)
  {
    var account, orderId := i.event.account, i.event.orderId;
    var w', found := Next(w, i), w.engine.tracker.Get((account, orderId));
    if found.Some? && w'.engine != w.engine {
      CancellingKeepsInv(w, max, w', found.value, account, orderId);
    }
  }

  lemma SyncKeepsInv(w: World, max: nat, i: Input)
    requires Inv(w, max) && i.event.Sync?
    ensures Inv(Next(w, i), max) && Evolves(w.engine.tracker, Next(w, i).engine.tracker)
  {
    var account, orderId := i.event.account, i.event.orderId;
    var w', found := Next(w, i), w.engine.tracker.Get((account, orderId));
    if found.Some? && w'.engine != w.engine {
      WaitingKeepsInv(w, max, w', Querying(found.value, account, orderId));
    }
  }

  /** A step that only moves one order along the table. */
  lemma MovedKeepsInv(w: World, max: nat, w': World, h: nat, s: Status)
    requires Inv(w, max) && h < |w.engine.tracker.records| && w.engine.tracker.MayBecome(h, s)
    requires w'.engine == w.engine.(tracker := w.engine.tracker.Became(h, s))
    requires w'.owner == w.owner && w'.placements == w.placements
    ensures Inv(w', max) && Evolves(w.engine.tracker, w'.engine.tracker)
  {
    BecameKeeps(w.engine.tracker, w.owner, h, s);
    CallsStayFit(w.engine, w.owner, w'.engine, w'.owner);
    ExecutedStays(w, max, w');
  }

  lemma SweepKeepsInv(w: World, max: nat, i: Input)
    requires Inv(w, max) && i.event.Sweep?
    ensures Inv(Next(w, i), max) && Evolves(w.engine.tracker, Next(w, i).engine.tracker)
  {
    var w', found := Next(w, i), w.engine.tracker.Get((i.event.account, i.event.orderId));
    if found.Some? && w.engine.tracker.MayBecome(found.value, Cancelled) {
      MovedKeepsInv(w, max, w', found.value, Cancelled);
    }
  }

  lemma StepKeepsInv(w: World, max: nat, i: Input)
    requires Inv(w, max) && Fair(w, max, i)
    ensures Inv(Next(w, i), max) && Evolves(w.engine.tracker, Next(w, i).engine.tracker)
  {
    match i.event
    case Place(_, _, _, _) => PlaceKeepsInv(w, max, i);
    case Resume(_, _) => ResumeKeepsInv(w, max, i);
    case Cancel(_, _) => CancelKeepsInv(w, max, i);
    case Sync(_, _) => SyncKeepsInv(w, max, i);
    case Sweep(_, _) => SweepKeepsInv(w, max, i);
  }

  // ------------------------------------------------------------------ whole runs

  /** `ws` are the worlds of a run on a fresh engine, `inputs[k]` taking `ws[k]` to `ws[k + 1]`. */
  ghost predicate Behaviour(ws: seq<World>, inputs: seq<Input>, max: nat) {
    && |ws| == |inputs| + 1 && ws[0] == Start(ws[0].engine.adapters)
    && forall k | 0 <= k < |inputs| ::
         Valid(ws[k].engine) && Fair(ws[k], max, inputs[k]) && ws[k + 1] == Next(ws[k], inputs[k])
  }

  lemma {:induction false} RunKeepsInv(ws: seq<World>, inputs: seq<Input>, max: nat, k: nat)
    requires Behaviour(ws, inputs, max) && k < |ws|
    ensures Inv(ws[k], max)
  {
    if k > 0 {
      RunKeepsInv(ws, inputs, max, k - 1);
      StepKeepsInv(ws[k - 1], max, inputs[k - 1]);
    }
  }

  /** At most once: no request is ever handed to the executor twice, and the adapter is asked to place
      it at most `max` times, however the operations interleave. */
  lemma AtMostOnce(ws: seq<World>, inputs: seq<Input>, max: nat, k: nat)
    requires Behaviour(ws, inputs, max) && k < |ws|
    ensures forall i, j | 0 <= i < j < |ws[k].engine.executed| :: ws[k].engine.executed[i] != ws[k].engine.executed[j]
    ensures forall r <- ws[k].placements :: ws[k].placements[r] <= max
  {
    RunKeepsInv(ws, inputs, max, k);
    var t := ws[k].engine.tracker;
    forall i, j | 0 <= i < j < |ws[k].engine.executed| ensures ws[k].engine.executed[i] != ws[k].engine.executed[j] {
      assert t.orders[t.index[t.records[i].request]] == i && t.orders[t.index[t.records[j].request]] == j;
    }
  }

  /** Whoever asks again gets the stored result of the very order its request started, and nothing is sent. */
  lemma RepeatReturnsOwnOrder(ws: seq<World>, inputs: seq<Input>, max: nat, k: nat, i: nat, account: string,
      valid: bool, localId: string)
    requires Behaviour(ws, inputs, max) && k < |ws| && i < |ws[k].engine.executed|
    ensures Valid(ws[k].engine)
    ensures var e := ws[k].engine; var again := PlaceBegins(e, e.executed[i], account, valid, localId);
      && i < |e.tracker.records| && e.tracker.records[i].request == e.executed[i]
      && again == Effect(e, Returned(e.tracker.records[i].result))
  {
    RunKeepsInv(ws, inputs, max, k);
    var t := ws[k].engine.tracker;
    assert t.orders[t.index[t.records[i].request]] == i;
  }

  /** A walk along the edges of the lifecycle table. */
  ghost predicate Walk(path: seq<Status>) {
    path != [] && forall i | 0 <= i < |path| - 1 :: path[i + 1] in Transitions(path[i])
  }

  ghost predicate Evolving(ws: seq<World>) {
    forall k | 0 <= k < |ws| - 1 :: Evolves(ws[k].engine.tracker, ws[k + 1].engine.tracker)
  }

  lemma RunEvolves(ws: seq<World>, inputs: seq<Input>, max: nat)
    requires Behaviour(ws, inputs, max)
    ensures Evolving(ws)
  {
    forall k | 0 <= k < |ws| - 1 ensures Evolves(ws[k].engine.tracker, ws[k + 1].engine.tracker) {
      RunKeepsInv(ws, inputs, max, k);
      StepKeepsInv(ws[k], max, inputs[k]);
    }
  }

  /** Between two moments of a run an order keeps its identity, and its history is a walk through the table. */
  lemma {:induction false} StatusesWalk(ws: seq<World>, j: nat, k: nat, h: nat) returns (path: seq<Status>)
    requires Evolving(ws) && j <= k < |ws| && h < |ws[j].engine.tracker.records|
    ensures h < |ws[k].engine.tracker.records|
    ensures ws[k].engine.tracker.records[h].request == ws[j].engine.tracker.records[h].request
    ensures Walk(path) && path[0] == ws[j].engine.tracker.records[h].status
    ensures path[|path| - 1] == ws[k].engine.tracker.records[h].status
  {
    if j == k {
      path := [ws[j].engine.tracker.records[h].status];
    } else {
      path := StatusesWalk(ws, j, k - 1, h);
      assert Evolves(ws[k - 1].engine.tracker, ws[k - 1 + 1].engine.tracker);
      var status := ws[k].engine.tracker.records[h].status;
      if status != path[|path| - 1] {
        path := path + [status];
      }
    }
  }

  /** So in every run. */
  lemma HistoriesWalk(ws: seq<World>, inputs: seq<Input>, max: nat, j: nat, k: nat, h: nat)
    requires Behaviour(ws, inputs, max) && j <= k < |ws| && h < |ws[j].engine.tracker.records|
    ensures h < |ws[k].engine.tracker.records|
    ensures exists path :: Walk(path) && path[0] == ws[j].engine.tracker.records[h].status
                           && path[|path| - 1] == ws[k].engine.tracker.records[h].status
  {
    RunEvolves(ws, inputs, max);
    var path := StatusesWalk(ws, j, k, h);
  }

  lemma {:induction false} WalkStopsAtTerminal(path: seq<Status>)
    requires Walk(path) && Terminal(path[0])
    ensures path == [path[0]]
  {
    assert |path| > 1 ==> path[1] in Transitions(path[0]);
    TerminalHasNoWayOut(path[0]);
  }

  /** A filled, cancelled or rejected order stays what it is. */
  lemma TerminalForever(ws: seq<World>, inputs: seq<Input>, max: nat, j: nat, k: nat, h: nat)
    requires Behaviour(ws, inputs, max) && j <= k < |ws| && h < |ws[j].engine.tracker.records|
    requires Terminal(ws[j].engine.tracker.records[h].status)
    ensures h < |ws[k].engine.tracker.records|
    ensures ws[k].engine.tracker.records[h].status == ws[j].engine.tracker.records[h].status
  {
    RunEvolves(ws, inputs, max);
    var path := StatusesWalk(ws, j, k, h);
    WalkStopsAtTerminal(path);
  }

  // ------------------------------------------------------------------ where the promise ends

  /** After a placement the stored result names the order the exchange knows exactly when the reported
      status is one that a submitted order may take; otherwise the order is marked failed, though the
      exchange accepted it, and its stored result keeps the local id. */
  lemma StoredIdFollowsIff(e: Engine, owner: map<Key, nat>, h: nat, r: Result)
    requires Valid(e) && Owned(e.tracker, owner) && Resolves(e.tracker) && h < |e.tracker.records|
    requires e.tracker.records[h].status == Submitting && StoredKey(e.tracker, h) in e.tracker.orders
    requires (e.tracker.records[h].account, r.orderId) !in owner
    ensures var e' := PlaceEnds(e, h, e.tracker.records[h].account, Ok(r)).engine;
      && (e'.tracker.records[h].result == r <==> MapExchangeStatus(r.status) in Transitions(Submitting))
      && (e'.tracker.records[h].result != r ==>
            e'.tracker.records[h].status == Failed && e'.tracker.records[h].result == e.tracker.records[h].result)
      && e'.tracker.ByRequest(e.tracker.records[h].request) == Some(h)
  {
    PlaceEndsKeeps(e, owner, h, Ok(r));
    assert StoredKey(e.tracker, h) in owner && owner[StoredKey(e.tracker, h)] == h;
    var account := e.tracker.records[h].account;
    var t := PlaceReKeys(e.tracker, h, account, r);
    assert t.orders[(account, r.orderId)] == h && (account, e.tracker.records[h].result.orderId) !in t.orders;
    var e' := PlaceEnds(e, h, account, Ok(r)).engine;
    assert e'.tracker.records[h].request == e.tracker.records[h].request;
  }
}
