/** Consumers sharing market data streams (subscription_manager.py). A subscription may suspend while its
    stream opens, so it is two steps; the class performs them back to back. */
module Subscriptions {
  import opened Options

  datatype Key = Key(exchange: string, symbol: string, channel: string)

  type Id = nat

  type Wire = nat

  type Callback = nat

  function LowerChar(c: char): char { if 'A' <= c <= 'Z' then 'a' + (c - 'A') else c }

  function UpperChar(c: char): char { if 'a' <= c <= 'z' then 'A' + (c - 'a') else c }

  function Lower(s: string): (r: string)
    ensures |r| == |s| && forall i | 0 <= i < |s| :: r[i] == LowerChar(s[i])
  {
    seq(|s|, i requires 0 <= i < |s| => LowerChar(s[i]))
  }

  function Upper(s: string): (r: string)
    ensures |r| == |s| && forall i | 0 <= i < |s| :: r[i] == UpperChar(s[i])
  {
    seq(|s|, i requires 0 <= i < |s| => UpperChar(s[i]))
  }

  /** `_logical_key`. */
  function LogicalKey(exchange: string, symbol: string, channel: string): Key {
    Key(Lower(exchange), Upper(symbol), Lower(channel))
  }

  predicate SameLetters(s: string, t: string) {
    |s| == |t| && forall i | 0 <= i < |s| :: LowerChar(s[i]) == LowerChar(t[i])
  }

  lemma LowerSame(s: string, t: string)
    ensures Lower(s) == Lower(t) <==> SameLetters(s, t)
  {
    if SameLetters(s, t) {
      assert Lower(s) == Lower(t);
    }
    if Lower(s) == Lower(t) {
      assert forall i | 0 <= i < |s| :: Lower(s)[i] == Lower(t)[i];
    }
  }

  lemma UpperSame(s: string, t: string)
    ensures Upper(s) == Upper(t) <==> SameLetters(s, t)
  {
    assert forall c, d :: UpperChar(c) == UpperChar(d) <==> LowerChar(c) == LowerChar(d);
    if SameLetters(s, t) {
      assert Upper(s) == Upper(t);
    }
    if Upper(s) == Upper(t) {
      assert forall i | 0 <= i < |s| :: Upper(s)[i] == Upper(t)[i];
    }
  }

  /** Two subscriptions share a stream exactly when their names differ only in case. */
  lemma SharedIffSameLetters(e: string, s: string, c: string, e': string, s': string, c': string)
    ensures LogicalKey(e, s, c) == LogicalKey(e', s', c')
      <==> SameLetters(e, e') && SameLetters(s, s') && SameLetters(c, c')
  {
    LowerSame(e, e');
    UpperSame(s, s');
    LowerSame(c, c');
  }

  datatype Stream = Stream(wire: Wire, refcount: int, callbacks: map<Id, Callback>)

  /** The two dictionaries, and beside them what an observer of the exchange and of the callers sees: the
      wire ids opened, the closes asked for, and the consumers whose `subscribe` has not returned, either
      still waiting for their stream or left behind by a failed open. */
  datatype Hub = Hub(
    logical: map<Key, Stream>, consumers: map<Id, Key>, opens: set<Wire>, closes: multiset<Wire>, outside: set<Id>)

  const EMPTY := Hub(map[], map[], {}, multiset{}, {})

  /** `subscribe` up to its await: the consumer joins a stream there is, or waits for one. */
  function Begin(h: Hub, key: Key, id: Id, callback: Callback): Hub {
    var h' := h.(consumers := h.consumers[id := key]);
    if key in h.logical then
      var s := h.logical[key];
      h'.(logical := h.logical[key := s.(refcount := s.refcount + 1, callbacks := s.callbacks[id := callback])])
    else h'.(outside := h.outside + {id})
  }

  /** `subscribe` after its await: the stream opened, or the open raised. */
  function Opened(h: Hub, key: Key, id: Id, callback: Callback, wire: Option<Wire>): Hub {
    match wire
    case None => h
    case Some(w) => h.(logical := h.logical[key := Stream(w, 1, map[id := callback])],
                       opens := h.opens + {w}, outside := h.outside - {id})
  }

  function Unsubscribed(h: Hub, id: Id): Hub {
    if id !in h.consumers then h
    else
      var key, h' := h.consumers[id], h.(consumers := h.consumers - {id});
      if key !in h.logical then h'
      else
        var s := Left(h.logical[key], id);
        if s.refcount <= 0 then h'.(logical := h.logical - {key}, closes := h.closes + multiset{s.wire})
        else h'.(logical := h.logical[key := s])
  }

  function Left(s: Stream, id: Id): Stream { s.(callbacks := s.callbacks - {id}, refcount := s.refcount - 1) }

  // ------------------------------------------------------------------ the partition

  function Served(h: Hub, key: Key): set<Id> { set id <- h.consumers | id !in h.outside && h.consumers[id] == key }

  predicate Tidy(s: Stream, members: set<Id>) { s.callbacks.Keys == members && s.refcount == |members| >= 1 }

  /** Each stream's callbacks are exactly the consumers mapped to it, its refcount is their number and at
      least one, and every consumer that has its stream has one that is open. */
  ghost predicate Partitioned(h: Hub) {
    && (forall k <- h.logical :: Tidy(h.logical[k], Served(h, k)))
    && (forall id <- h.consumers :: id in h.outside || h.consumers[id] in h.logical)
    && h.outside <= h.consumers.Keys
  }

  function Wires(logical: map<Key, Stream>): set<Wire> { set k <- logical :: logical[k].wire }

  /** No wire is closed twice; each open one is held by one stream, and those held are the opened ones that
      were not closed. */
  ghost predicate Wired(h: Hub) {
    && (forall w <- h.closes :: h.closes[w] == 1 && w in h.opens && w !in Wires(h.logical))
    && (forall w <- h.opens :: w in h.closes || w in Wires(h.logical))
    && Wires(h.logical) <= h.opens
    && Injective(h.logical)
    && |h.opens| == |h.closes| + |h.logical|
  }

  ghost predicate Injective(logical: map<Key, Stream>) {
    forall k, l | k in logical && l in logical && k != l :: logical[k].wire != logical[l].wire
  }

  ghost predicate Inv(h: Hub) { Partitioned(h) && Wired(h) }

  predicate Joins(h: Hub, id: Id, k: Key) { id in h.consumers && id !in h.outside && h.consumers[id] == k }

  ghost predicate AgreeBut(h: Hub, h': Hub, id: Id) {
    forall other, k | other != id :: Joins(h, other, k) == Joins(h', other, k)
  }

  lemma ServedChange(h: Hub, h': Hub, id: Id, k: Key)
    requires AgreeBut(h, h', id)
    ensures Joins(h, id, k) == Joins(h', id, k) ==> Served(h', k) == Served(h, k)
    ensures Joins(h', id, k) && !Joins(h, id, k) ==>
      Served(h', k) == Served(h, k) + {id} && |Served(h', k)| == |Served(h, k)| + 1
    ensures Joins(h, id, k) && !Joins(h', id, k) ==>
      Served(h', k) == Served(h, k) - {id} && |Served(h', k)| == |Served(h, k)| - 1
  {
    var before, after := Served(h, k), Served(h', k);
    assert forall other :: other in before <==> Joins(h, other, k);
    assert forall other :: other in after <==> Joins(h', other, k);
    if (id in before) == (id in after) {
      assert after == before;
    } else if id in after {
      assert after == before + {id};
    } else {
      assert after == before - {id};
    }
  }

  lemma SameWires(logical: map<Key, Stream>, key: Key, s: Stream)
    requires key in logical && s.wire == logical[key].wire
    ensures Wires(logical[key := s]) == Wires(logical) && (Injective(logical) ==> Injective(logical[key := s]))
    ensures |logical[key := s]| == |logical|
  {
    assert logical[key := s].Keys == logical.Keys;
  }

  lemma OneMoreWire(logical: map<Key, Stream>, key: Key, s: Stream)
    requires key !in logical
    ensures Wires(logical[key := s]) == Wires(logical) + {s.wire} && |logical[key := s]| == |logical| + 1
    ensures Injective(logical) && s.wire !in Wires(logical) ==> Injective(logical[key := s])
  {
    var more := logical[key := s];
    assert more.Keys == logical.Keys + {key};
    assert forall k <- logical :: more[k] == logical[k];
    forall w ensures w in Wires(more) <==> w in Wires(logical) || w == s.wire {
      if w in Wires(logical) {
        var k :| k in logical && logical[k].wire == w;
        assert k in more && more[k].wire == w;
      }
      assert key in more && more[key].wire == s.wire;
    }
  }

  lemma OneWireLess(logical: map<Key, Stream>, key: Key)
    requires key in logical && Injective(logical)
    ensures Wires(logical - {key}) == Wires(logical) - {logical[key].wire} && Injective(logical - {key})
    ensures |logical - {key}| == |logical| - 1
  {
    var rest := logical - {key};
    assert rest.Keys == logical.Keys - {key};
    assert forall k <- rest :: rest[k] == logical[k] && logical[k].wire != logical[key].wire;
    forall w | w in Wires(logical) && w != logical[key].wire ensures w in Wires(rest) {
      var k :| k in logical && logical[k].wire == w;
      assert k in rest && rest[k].wire == w;
    }
  }

  lemma JoiningKeepsTidy(h: Hub, key: Key, id: Id, callback: Callback, k: Key)
    requires Partitioned(h) && id !in h.consumers && key in h.logical && k in h.logical
    ensures Tidy(Begin(h, key, id, callback).logical[k], Served(Begin(h, key, id, callback), k))
  {
    var h' := Begin(h, key, id, callback);
    JoiningAgrees(h, key, id, callback);
    ServedChange(h, h', id, k);
    assert Tidy(h.logical[k], Served(h, k));
    if k == key {
      assert h'.logical[k].callbacks.Keys == h.logical[k].callbacks.Keys + {id};
    } else {
      assert h'.logical[k] == h.logical[k];
    }
  }

  lemma JoiningAgrees(h: Hub, key: Key, id: Id, callback: Callback)
    requires id !in h.consumers && key in h.logical
    ensures AgreeBut(h, Begin(h, key, id, callback), id)
  {
  }

  /** One more consumer of a stream there is. */
  lemma JoiningKeepsPartition(h: Hub, key: Key, id: Id, callback: Callback)
    requires Partitioned(h) && id !in h.consumers && key in h.logical
    ensures Partitioned(Begin(h, key, id, callback))
  {
    var h' := Begin(h, key, id, callback);
    assert h'.outside == h.outside && h'.logical.Keys == h.logical.Keys;
    forall k <- h'.logical ensures Tidy(h'.logical[k], Served(h', k)) {
      JoiningKeepsTidy(h, key, id, callback, k);
    }
  }

  lemma WaitingKeepsPartition(h: Hub, key: Key, id: Id, callback: Callback)
    requires Partitioned(h) && id !in h.consumers && key !in h.logical
    ensures Partitioned(Begin(h, key, id, callback))
  {
    var h' := Begin(h, key, id, callback);
    assert h'.logical == h.logical && AgreeBut(h, h', id);
    forall k <- h'.logical ensures Tidy(h'.logical[k], Served(h', k)) {
      ServedChange(h, h', id, k);
      assert Tidy(h.logical[k], Served(h, k));
    }
  }

  lemma BeginKeepsInv(h: Hub, key: Key, id: Id, callback: Callback)
    requires Inv(h) && id !in h.consumers
    ensures Inv(Begin(h, key, id, callback))
  {
    if key !in h.logical {
      WaitingKeepsPartition(h, key, id, callback);
    } else {
      JoiningKeepsPartition(h, key, id, callback);
      SameWires(h.logical, key, Begin(h, key, id, callback).logical[key]);
    }
  }

  lemma OpenedKeepsPartition(h: Hub, key: Key, id: Id, callback: Callback, w: Wire)
    requires Partitioned(h) && key !in h.logical && id in h.outside && h.consumers[id] == key
    ensures Partitioned(Opened(h, key, id, callback, Some(w)))
  {
    var h' := Opened(h, key, id, callback, Some(w));
    forall k <- h'.logical ensures Tidy(h'.logical[k], Served(h', k)) {
      ServedChange(h, h', id, k);
      if k == key {
        assert Served(h, k) == {};
      } else {
        assert Tidy(h.logical[k], Served(h, k));
      }
    }
  }

  /** A stream that opens while its key is free keeps the partition. */
  lemma OpenedKeepsInv(h: Hub, key: Key, id: Id, callback: Callback, w: Wire)
    requires Inv(h) && key !in h.logical && id in h.outside && h.consumers[id] == key && w !in h.opens
    ensures Inv(Opened(h, key, id, callback, Some(w)))
  {
    OpenedKeepsPartition(h, key, id, callback, w);
    OneMoreWire(h.logical, key, Stream(w, 1, map[id := callback]));
  }

  lemma LeavingKeepsTidy(h: Hub, id: Id, k: Key)
    requires Partitioned(h) && id in h.consumers && id !in h.outside && k in Unsubscribed(h, id).logical
    ensures Tidy(Unsubscribed(h, id).logical[k], Served(Unsubscribed(h, id), k))
  {
    assert AgreeBut(h, Unsubscribed(h, id), id);
    ServedChange(h, Unsubscribed(h, id), id, k);
    assert Tidy(h.logical[k], Served(h, k));
  }

  /** A consumer that leaves others behind leaves their stream tidy. */
  lemma LeavingKeepsPartition(h: Hub, id: Id)
    requires Partitioned(h) && id in h.consumers && id !in h.outside && h.logical[h.consumers[id]].refcount > 1
    ensures Partitioned(Unsubscribed(h, id))
  {
    var h' := Unsubscribed(h, id);
    assert h'.outside == h.outside && h'.logical.Keys == h.logical.Keys;
    forall k <- h'.logical ensures Tidy(h'.logical[k], Served(h', k)) {
      LeavingKeepsTidy(h, id, k);
    }
  }

  /** The last consumer of a stream is the only one mapped to it. */
  lemma LastIsAlone(h: Hub, id: Id, other: Id)
    requires Partitioned(h) && id in h.consumers && id !in h.outside && h.logical[h.consumers[id]].refcount <= 1
    requires Joins(h, other, h.consumers[id])
    ensures other == id
  {
    var served := Served(h, h.consumers[id]);
    assert Tidy(h.logical[h.consumers[id]], served) && id in served && other in served;
    if other != id {
      assert {id, other} <= served && |{id, other}| == 2;
      SizeOfDifference(served, {id, other});
    }
  }

  /** The last one takes the stream along. */
  lemma LastLeavingKeepsPartition(h: Hub, id: Id)
    requires Partitioned(h) && id in h.consumers && id !in h.outside && h.logical[h.consumers[id]].refcount <= 1
    ensures Partitioned(Unsubscribed(h, id))
  {
    var h', key := Unsubscribed(h, id), h.consumers[id];
    assert h'.logical == h.logical - {key} && h'.outside == h.outside;
    forall k <- h'.logical ensures Tidy(h'.logical[k], Served(h', k)) {
      LeavingKeepsTidy(h, id, k);
    }
    forall other <- h'.consumers ensures other in h'.outside || h'.consumers[other] in h'.logical {
      if other !in h.outside && h.consumers[other] == key {
        LastIsAlone(h, id, other);
      }
    }
  }

  lemma UnsubscribedKeepsInv(h: Hub, id: Id)
    requires Inv(h) && id !in h.outside
    ensures Inv(Unsubscribed(h, id))
  {
    if id in h.consumers {
      var h', key := Unsubscribed(h, id), h.consumers[id];
      if h.logical[key].refcount > 1 {
        LeavingKeepsPartition(h, id);
      } else {
        LastLeavingKeepsPartition(h, id);
      }
      if key in h'.logical {
        SameWires(h.logical, key, h'.logical[key]);
      } else {
        assert h.logical[key].wire in Wires(h.logical);
        OneWireLess(h.logical, key);
      }
    }
  }

  // ------------------------------------------------------------------ interleaved runs

  datatype Event =
    | Begins(key: Key, id: Id, callback: Callback)
    | Opens(key: Key, id: Id, callback: Callback, wire: Option<Wire>)
    | Leaves(id: Id)

  function Next(h: Hub, e: Event): Hub {
    match e
    case Begins(key, id, callback) => Begin(h, key, id, callback)
    case Opens(key, id, callback, wire) => Opened(h, key, id, callback, wire)
    case Leaves(id) => Unsubscribed(h, id)
  }

  /** Consumer and wire ids are fresh, streams open for those who wait, and only a consumer whose
      `subscribe` returned knows its id. */
  predicate Fair(h: Hub, e: Event) {
    match e
    case Begins(key, id, _) => id !in h.consumers
    case Opens(key, id, _, wire) =>
      id in h.outside && id in h.consumers && h.consumers[id] == key && (wire.Some? ==> wire.value !in h.opens)
    case Leaves(id) => id !in h.outside
  }

  /** An open that completes finds its key still free. */
  predicate Undisturbed(h: Hub, e: Event) { e.Opens? && e.wire.Some? ==> e.key !in h.logical }

  function After(events: seq<Event>): Hub {
    if events == [] then EMPTY else Next(After(events[..|events|-1]), events[|events|-1])
  }

  /** The callback a consumer last subscribed with. */
  function Gave(events: seq<Event>, id: Id): Option<Callback> {
    if events == [] then None
    else
      var last := events[|events|-1];
      if last.Begins? && last.id == id then Some(last.callback) else Gave(events[..|events|-1], id)
  }

  /** In a fair run a coroutine whose stream opens still has the callback it was called with. */
  ghost predicate FairRun(events: seq<Event>) {
    events == [] ||
    var before, last := events[..|events|-1], events[|events|-1];
    FairRun(before) && Fair(After(before), last) && (last.Opens? ==> Gave(before, last.id) == Some(last.callback))
  }

  ghost predicate UndisturbedRun(events: seq<Event>) {
    events == []
    || (UndisturbedRun(events[..|events|-1]) && Undisturbed(After(events[..|events|-1]), events[|events|-1]))
  }

  /** Whatever the interleaving of subscriptions, opens that succeed or fail, and departures, the streams
      partition the consumers, provided no key is opened twice at once. */
  lemma {:induction false} RunKeepsInv(events: seq<Event>)
    requires FairRun(events) && UndisturbedRun(events)
    ensures Inv(After(events))
  {
    if events != [] {
      var h, e := After(events[..|events|-1]), events[|events|-1];
      RunKeepsInv(events[..|events|-1]);
      match e
      case Begins(key, id, callback) => BeginKeepsInv(h, key, id, callback);
      case Opens(key, id, callback, wire) => if wire.Some? { OpenedKeepsInv(h, key, id, callback, wire.value); }
      case Leaves(id) => UnsubscribedKeepsInv(h, id);
    }
  }

  /** Every callback a stream holds is the one its consumer gave. */
  ghost predicate OwnCallbacks(h: Hub, events: seq<Event>) {
    forall k, id | k in h.logical && id in h.logical[k].callbacks ::
      Gave(events, id) == Some(h.logical[k].callbacks[id])
  }

  lemma {:induction false} RunKeepsCallbacks(events: seq<Event>)
    requires FairRun(events) && UndisturbedRun(events)
    ensures OwnCallbacks(After(events), events)
  {
    if events != [] {
      var before, last := LastStep(events);
      RunKeepsInv(before);
      RunKeepsCallbacks(before);
      StepKeepsCallbacks(After(before), before, last, events);
    }
  }

  lemma {:induction false} LastStep(events: seq<Event>) returns (before: seq<Event>, last: Event)
    requires FairRun(events) && UndisturbedRun(events) && events != []
    ensures events == before + [last] && |before| == |events| - 1 && After(events) == Next(After(before), last)
    ensures FairRun(before) && UndisturbedRun(before) && Fair(After(before), last)
    ensures last.Opens? ==> Gave(before, last.id) == Some(last.callback)
  {
    before, last := events[..|events|-1], events[|events|-1];
  }

  lemma {:induction false} GaveAfter(events: seq<Event>, e: Event, id: Id)
    ensures Gave(events + [e], id) == if e.Begins? && e.id == id then Some(e.callback) else Gave(events, id)
  {
    assert (events + [e])[..|events|] == events;
  }

  lemma {:induction false} StepKeepsCallbacks(h: Hub, events: seq<Event>, e: Event, more: seq<Event>)
    requires Partitioned(h) && OwnCallbacks(h, events) && Fair(h, e) && more == events + [e]
    requires e.Opens? ==> Gave(events, e.id) == Some(e.callback)
    ensures OwnCallbacks(Next(h, e), more)
  {
    var h' := Next(h, e);
    forall k, id | k in h'.logical && id in h'.logical[k].callbacks
      ensures Gave(more, id) == Some(h'.logical[k].callbacks[id])
    {
      GaveAfter(events, e, id);
      if k in h.logical && id in h.logical[k].callbacks {
        assert Tidy(h.logical[k], Served(h, k)) && id in h.consumers;
      }
    }
  }

  /** Whatever the interleaving, a consumer that has its stream is mapped there to the very callback it gave. */
  lemma {:induction false} ServedWithOwnCallback(events: seq<Event>, k: Key, id: Id)
    requires FairRun(events) && UndisturbedRun(events) && Joins(After(events), id, k)
    ensures var h := After(events);
      k in h.logical && id in h.logical[k].callbacks && Gave(events, id) == Some(h.logical[k].callbacks[id])
  {
    RunKeepsInv(events);
    RunKeepsCallbacks(events);
    assert id in Served(After(events), k) && Tidy(After(events).logical[k], Served(After(events), k));
  }

  /** The proviso is exact: an open that completes keeps the partition if and only if its key is free.
      Otherwise it overwrites a stream, whose consumers lose their callbacks and whose wire is never closed. */
  lemma OpenKeepsInvIff(h: Hub, e: Event)
    requires Inv(h) && Fair(h, e) && e.Opens? && e.wire.Some?
    ensures Inv(Next(h, e)) <==> e.key !in h.logical
    ensures e.key in h.logical ==>
      exists other :: other in Served(Next(h, e), e.key) && other !in Next(h, e).logical[e.key].callbacks
  {
    var h' := Next(h, e);
    if e.key in h.logical {
      var callbacks := h.logical[e.key].callbacks;
      assert |callbacks.Keys| >= 1;
      var other :| other in callbacks.Keys;
      assert other in Served(h, e.key) && other != e.id;
      assert other in Served(h', e.key) && other !in h'.logical[e.key].callbacks;
    } else {
      OpenedKeepsInv(h, e.key, e.id, e.callback, e.wire.value);
    }
  }

  lemma {:induction false} RunExtends(events: seq<Event>, e: Event)
    requires FairRun(events) && Fair(After(events), e) && (e.Opens? ==> Gave(events, e.id) == Some(e.callback))
    ensures FairRun(events + [e]) && After(events + [e]) == Next(After(events), e)
  {
    assert (events + [e])[..|events|] == events;
  }

  /** Two first subscribers that wait at the same time both open a stream; when both have left, one wire
      is still open and nothing refers to it. */
  lemma ConcurrentFirstSubscribersLeak()
    ensures exists events: seq<Event> :: FairRun(events) && After(events) == Hub(map[], map[], {7, 8}, multiset{8}, {})
  {
    var k := Key("x", "Y", "z");
    var waiting := TwoWait(k);
    RunExtends(waiting, Opens(k, 1, 0, Some(7)));
    var one := waiting + [Opens(k, 1, 0, Some(7))];
    GaveAfter(waiting, Opens(k, 1, 0, Some(7)), 2);
    assert After(one) == Hub(map[k := Stream(7, 1, map[1 := 0])], map[1 := k, 2 := k], {7}, multiset{}, {2});
    RunExtends(one, Opens(k, 2, 0, Some(8)));
    var two := one + [Opens(k, 2, 0, Some(8))];
    assert After(two) == Hub(map[k := Stream(8, 1, map[2 := 0])], map[1 := k, 2 := k], {7, 8}, multiset{}, {});
    BothLeave(k, two);
  }

  lemma TwoWait(k: Key) returns (events: seq<Event>)
    ensures FairRun(events) && After(events) == Hub(map[], map[1 := k, 2 := k], {}, multiset{}, {1, 2})
    ensures Gave(events, 1) == Gave(events, 2) == Some(0)
  {
    RunExtends([], Begins(k, 1, 0));
    events := [] + [Begins(k, 1, 0)];
    assert After(events) == Hub(map[], map[1 := k], {}, multiset{}, {1});
    RunExtends(events, Begins(k, 2, 0));
    GaveAfter(events, Begins(k, 2, 0), 1);
    GaveAfter([], Begins(k, 1, 0), 1);
    GaveAfter(events, Begins(k, 2, 0), 2);
    events := events + [Begins(k, 2, 0)];
  }

  lemma {:induction false} BothLeave(k: Key, events: seq<Event>)
    requires FairRun(events)
    requires After(events) == Hub(map[k := Stream(8, 1, map[2 := 0])], map[1 := k, 2 := k], {7, 8}, multiset{}, {})
    ensures exists all: seq<Event> :: FairRun(all) && After(all) == Hub(map[], map[], {7, 8}, multiset{8}, {})
  {
    LeaveOneByOne(k);
    RunExtends(events, Leaves(1));
    var one := events + [Leaves(1)];
    RunExtends(one, Leaves(2));
    var both := one + [Leaves(2)];
    assert After(both) == Hub(map[], map[], {7, 8}, multiset{8}, {});
  }

  lemma LeaveOneByOne(k: Key)
    ensures Next(Hub(map[k := Stream(8, 1, map[2 := 0])], map[1 := k, 2 := k], {7, 8}, multiset{}, {}), Leaves(1))
         == Hub(map[], map[2 := k], {7, 8}, multiset{8}, {})
    ensures Next(Hub(map[], map[2 := k], {7, 8}, multiset{8}, {}), Leaves(2))
         == Hub(map[], map[], {7, 8}, multiset{8}, {})
  {
  }

  // ------------------------------------------------------------------ the manager

  /** The callbacks of a set of streams. */
  function ServedBy(h: Hub, ks: set<Key>): set<Id> { set id <- h.consumers | id !in h.outside && h.consumers[id] in ks }

  /** The consumers of every stream but those in `left`. */
  ghost function CountWithout(h: Hub, left: set<Key>): nat { |ServedBy(h, h.logical.Keys - left)| }

  lemma CountOneMore(h: Hub, left: set<Key>, key: Key)
    requires Partitioned(h) && key in h.logical && key in left
    ensures CountWithout(h, left - {key}) == CountWithout(h, left) + h.logical[key].refcount
  {
    var done := h.logical.Keys - left;
    assert Tidy(h.logical[key], Served(h, key));
    assert h.logical.Keys - (left - {key}) == done + {key};
    assert ServedBy(h, done + {key}) == ServedBy(h, done) + Served(h, key);
    assert ServedBy(h, done) !! Served(h, key);
  }

  lemma AllServed(h: Hub)
    requires Partitioned(h)
    ensures ServedBy(h, h.logical.Keys) == h.consumers.Keys - h.outside && h.outside <= h.consumers.Keys
  {
  }

  lemma AllCounted(h: Hub)
    requires Partitioned(h)
    ensures CountWithout(h, {}) == |h.consumers| - |h.outside|
  {
    AllServed(h);
    assert h.logical.Keys - {} == h.logical.Keys;
    SizeOfDifference(h.consumers.Keys, h.outside);
  }

  lemma SizeOfDifference(all: set<Id>, part: set<Id>)
    requires part <= all
    ensures |all - part| == |all| - |part|
  {
    assert all == (all - part) + part;
  }

  /** The refcounts of some streams, added up in any order. */
  ghost function Refcounts(streams: map<Key, Stream>, keys: set<Key>): int
    requires keys <= streams.Keys
  {
    if keys == {} then 0
    else
      var k :| k in keys;
      streams[k].refcount + Refcounts(streams, keys - {k})
  }

  lemma {:induction false} RefcountsInAnyOrder(streams: map<Key, Stream>, keys: set<Key>, key: Key)
    requires keys <= streams.Keys && key in keys
    ensures Refcounts(streams, keys) == streams[key].refcount + Refcounts(streams, keys - {key})
    decreases |keys|
  {
    var k :| k in keys && Refcounts(streams, keys) == streams[k].refcount + Refcounts(streams, keys - {k});
    if k != key {
      RefcountsInAnyOrder(streams, keys - {k}, key);
      RefcountsInAnyOrder(streams, keys - {key}, k);
      assert keys - {k} - {key} == keys - {key} - {k};
    }
  }

  /** In a partitioned hub the refcounts count the consumers that have their streams. */
  lemma {:induction false} RefcountsCountConsumers(h: Hub, keys: set<Key>)
    requires Partitioned(h) && keys <= h.logical.Keys
    ensures CountWithout(h, {}) == CountWithout(h, keys) + Refcounts(h.logical, keys)
    decreases |keys|
  {
    if keys != {} {
      var k :| k in keys;
      RefcountsInAnyOrder(h.logical, keys, k);
      RefcountsCountConsumers(h, keys - {k});
      CountOneMore(h, keys, k);
    }
  }

  /** So they add up to the size of the consumer map exactly when no open is pending or failed. */
  lemma ConsumersCounted(h: Hub)
    requires Partitioned(h)
    ensures var n := Refcounts(h.logical, h.logical.Keys);
      n == |h.consumers| - |h.outside| && (n == |h.consumers| <==> h.outside == {})
  {
    RefcountsCountConsumers(h, h.logical.Keys);
    AllCounted(h);
    assert ServedBy(h, h.logical.Keys - h.logical.Keys) == {};
  }

  /** Whether a stream passes the filters of `active_count`: an empty text filters nothing. */
  predicate Passes(key: Key, exchange: string, symbol: string) {
    (exchange == "" || key.exchange == Lower(exchange)) && (symbol == "" || key.symbol == Upper(symbol))
  }

  class SubscriptionManager {
    var logical: map<Key, Stream>
    var consumers: map<Id, Key>
    ghost var opens: set<Wire>
    ghost var closes: multiset<Wire>
    ghost var outside: set<Id>

    ghost function View(): Hub reads this { Hub(logical, consumers, opens, closes, outside) }

    ghost predicate Valid() reads this { Inv(View()) }

    constructor ()
      ensures Valid() && View() == EMPTY
    {
      logical, consumers, opens, closes, outside := map[], map[], {}, multiset{}, {};
    }

    /** `subscribe` up to its await: whether the consumer now waits for its stream to open. */
    method Subscribe(exchange: string, symbol: string, channel: string, id: Id, callback: Callback)
      returns (key: Key, waits: bool)
      modifies this
      ensures key == LogicalKey(exchange, symbol, channel) && waits == (key !in old(logical))
      ensures View() == Begin(old(View()), key, id, callback)
      ensures old(Valid()) && id !in old(consumers) ==> Valid()
    {
      key := LogicalKey(exchange, symbol, channel);
      ghost var h := View();
      consumers := consumers[id := key];
      waits := key !in logical;
      if waits {
        outside := outside + {id};
      } else {
        var s := logical[key];
        s := s.(refcount := s.refcount + 1);
        logical := logical[key := s.(callbacks := s.callbacks[id := callback])];
      }
      assert View() == Begin(h, key, id, callback);
      if Inv(h) && id !in h.consumers {
        BeginKeepsInv(h, key, id, callback);
      }
    }

    /** `subscribe` after its await: `wire` is what the open returned, or None if it raised. */
    method FinishSubscribe(key: Key, id: Id, callback: Callback, wire: Option<Wire>) returns (ok: bool)
      modifies this
      ensures View() == Opened(old(View()), key, id, callback, wire) && ok == wire.Some?
      ensures old(Valid()) && Fair(old(View()), Opens(key, id, callback, wire)) ==>
        (Valid() <==> Undisturbed(old(View()), Opens(key, id, callback, wire)))
    {
      ghost var h, e := View(), Opens(key, id, callback, wire);
      if wire.Some? {
        logical := logical[key := Stream(wire.value, 1, map[id := callback])];
        opens, outside := opens + {wire.value}, outside - {id};
      }
      assert View() == Opened(h, key, id, callback, wire);
      if Inv(h) && Fair(h, e) && wire.Some? {
        OpenKeepsInvIff(h, e);
      }
      return wire.Some?;
    }

    /** A consumer leaves its stream, which closes with the last one. */
    method Release(key: Key, id: Id)
      requires key in logical
      modifies this`logical, this`closes
      ensures var s := Left(old(logical)[key], id);
        if s.refcount <= 0 then logical == old(logical) - {key} && closes == old(closes) + multiset{s.wire}
        else logical == old(logical)[key := s] && closes == old(closes)
    {
      var s := logical[key];
      s := s.(callbacks := s.callbacks - {id});
      s := s.(refcount := s.refcount - 1);
      if s.refcount <= 0 {
        closes := closes + multiset{s.wire};
        logical := logical - {key};
      } else {
        logical := logical[key := s];
      }
    }

    method Unsubscribe(id: Id)
      modifies this
      ensures View() == Unsubscribed(old(View()), id)
      ensures old(Valid()) && id !in old(outside) ==> Valid()
    {
      ghost var h := View();
      if id in consumers {
        var key := consumers[id];
        consumers := consumers - {id};
        if key in logical {
          Release(key, id);
        }
      }
      assert View() == Unsubscribed(h, id);
      if Inv(h) && id !in h.outside {
        UnsubscribedKeepsInv(h, id);
      }
    }

    /** `consumer_count` sums the refcounts. */
    method ConsumerCount() returns (n: int)
      ensures n == Refcounts(logical, logical.Keys)
      ensures Valid() ==> n == |consumers| - |outside| && (n == |consumers| <==> outside == {})
    {
      n := 0;
      var left := logical.Keys;
      while left != {}
        invariant left <= logical.Keys && n + Refcounts(logical, left) == Refcounts(logical, logical.Keys)
        decreases |left|
      {
        var key :| key in left;
        RefcountsInAnyOrder(logical, left, key);
        n := n + logical[key].refcount;
        left := left - {key};
      }
      if Valid() {
        ConsumersCounted(View());
      }
    }

    /** `active_count`: the streams that pass the filters; without any, those opened and not closed. */
    method ActiveCount(exchange: string, symbol: string) returns (n: nat)
      ensures n == |set k <- logical | Passes(k, exchange, symbol)|
      ensures Valid() && exchange == "" && symbol == "" ==> n == |opens| - |closes|
    {
      if exchange == "" && symbol == "" {
        assert (set k <- logical | Passes(k, exchange, symbol)) == logical.Keys;
        return |logical|;
      }
      n := 0;
      var left := logical.Keys;
      ghost var counted: set<Key> := {};
      while left != {}
        invariant left <= logical.Keys && n == |counted|
        invariant counted == set k <- logical | k !in left && Passes(k, exchange, symbol)
        decreases |left|
      {
        var key :| key in left;
        if Passes(key, exchange, symbol) {
          n, counted := n + 1, counted + {key};
        }
        left := left - {key};
      }
      assert counted == set k <- logical | Passes(k, exchange, symbol);
    }
  }
}
