/** Runs of the execution engine in which an exchange that is not trusted, or an answer that comes too
    early, breaks what ExecutionRuns and ExecutionOnce prove under their assumptions. */
module ExecutionExamples {
  import opened Options
  import opened Orders
  import opened Execution

  /** Carrying out `events` takes `e` to `e'`. */
  ghost predicate Leads(e: Engine, events: seq<Event>, e': Engine)
    decreases |events|
  {
    if events == [] then e == e'
    else
      && Valid(e) && (events[0].Resume? ==> events[0].call < |e.calls|)
      && Leads(Step(e, events[0]).engine, events[1..], e')
  }

  lemma {:induction false} LeadsBy(e: Engine, ev: Event, next: Engine, rest: seq<Event>, e': Engine)
    requires Valid(e) && (ev.Resume? ==> ev.call < |e.calls|) && Step(e, ev).engine == next && Leads(next, rest, e')
    ensures Leads(e, [ev] + rest, e')
  {
    assert ([ev] + rest)[1..] == rest;
  }

  const FRESH := Engine(Tracker([], map[], map[]), {"acct"}, [], [])

  function Stored(request: string, orderId: string, status: string, s: Status): Record {
    Record(request, "acct", Result(orderId, if status == "pending" then "" else orderId, status), s, 0)
  }

  // ------------------------------------------------------------------ two placements under way

  const ONE_PLACING := Engine(
    Tracker(
      [Stored("r1", "local_1", "pending", Submitting)],
      map[("acct", "local_1") := 0],
      map["r1" := ("acct", "local_1")]),
    {"acct"}, [Placing(0, "r1", "acct")], ["r1"])

  const TWO_PLACING := Engine(
    Tracker([Stored("r1", "local_1", "pending", Submitting), Stored("r2", "local_2", "pending", Submitting)],
            map[("acct", "local_1") := 0, ("acct", "local_2") := 1],
            map["r1" := ("acct", "local_1"), "r2" := ("acct", "local_2")]),
    {"acct"}, [Placing(0, "r1", "acct"), Placing(1, "r2", "acct")], ["r1", "r2"])

  function PlaceOne(k: string): Event { Place("r" + k, "acct", true, "local_" + k) }

  lemma FirstPlacement()
    ensures Valid(FRESH) && Step(FRESH, PlaceOne("1")).engine == ONE_PLACING
  {
    assert "r" + "1" == "r1" && "local_" + "1" == "local_1";
    var e := Step(FRESH, PlaceOne("1")).engine;
    assert e.tracker.orders == ONE_PLACING.tracker.orders && e.tracker.index == ONE_PLACING.tracker.index;
  }

  lemma SecondPlacement()
    ensures Valid(ONE_PLACING) && Step(ONE_PLACING, PlaceOne("2")).engine == TWO_PLACING
  {
    assert "r" + "2" == "r2" && "local_" + "2" == "local_2";
    var e := Step(ONE_PLACING, PlaceOne("2")).engine;
    assert e.tracker.orders == TWO_PLACING.tracker.orders && e.tracker.index == TWO_PLACING.tracker.index;
  }

  /** Whatever follows from two placements under way follows a run on a fresh engine. */
  lemma {:induction false} AfterTwoPlacements(rest: seq<Event>, e': Engine)
    requires Leads(TWO_PLACING, rest, e')
    ensures Leads(FRESH, [PlaceOne("1")] + ([PlaceOne("2")] + rest), e')
  {
    SecondPlacement();
    LeadsBy(ONE_PLACING, PlaceOne("2"), TWO_PLACING, rest, e');
    FirstPlacement();
    LeadsBy(FRESH, PlaceOne("1"), ONE_PLACING, [PlaceOne("2")] + rest, e');
  }

  ghost predicate Reachable(e: Engine) { exists events :: Leads(FRESH, events, e) }

  lemma {:induction false} OneMore(ev: Event, e: Engine)
    requires Valid(TWO_PLACING) && (ev.Resume? ==> ev.call < |TWO_PLACING.calls|) && Step(TWO_PLACING, ev).engine == e
    ensures Reachable(e)
  {
    LeadsBy(TWO_PLACING, ev, e, [], e);
    AfterTwoPlacements([ev] + [], e);
  }

  /** A placement that the exchange accepted as pending: the order is marked failed, and its stored result
      keeps the placeholder id. */
  lemma AcceptedYetFailed() returns (e: Engine)
    ensures Reachable(e) && ("acct", "x") in e.tracker.orders && e.tracker.ByRequest("r1") == Some(0)
    ensures e.tracker.records
         == [Stored("r1", "local_1", "pending", Failed), Stored("r2", "local_2", "pending", Submitting)]
  {
    var answer := Event.Resume(0, Ok(Result("x", "x", "pending")));
    e := Step(TWO_PLACING, answer).engine;
    assert MapExchangeStatus("pending") == Pending;
    assert e.tracker.orders == map[("acct", "x") := 0, ("acct", "local_2") := 1];
    assert e.tracker.index["r1"] == ("acct", "x");
    OneMore(answer, e);
  }

  /** Both placements are reported under one id: the first request then resolves to the second order. */
  lemma SharedIdsConfuse() returns (e: Engine)
    ensures Reachable(e)
    ensures e.tracker.ByRequest("r1") == Some(1) && 1 < |e.tracker.records| && e.tracker.records[1].request == "r2"
  {
    var answer := Event.Resume(0, OPEN_AS_X);
    FirstIsX();
    e := SecondIsX();
    LeadsBy(FIRST_X, answer, e, [], e);
    LeadsBy(TWO_PLACING, answer, FIRST_X, [answer] + [], e);
    AfterTwoPlacements([answer] + ([answer] + []), e);
  }

  lemma SecondIsX() returns (e: Engine)
    requires Valid(FIRST_X)
    ensures e == Step(FIRST_X, Event.Resume(0, OPEN_AS_X)).engine
    ensures e.tracker.ByRequest("r1") == Some(1) && 1 < |e.tracker.records| && e.tracker.records[1].request == "r2"
  {
    e := Step(FIRST_X, Event.Resume(0, OPEN_AS_X)).engine;
    assert MapExchangeStatus("open") == Open;
    assert e.tracker.orders == map[("acct", "x") := 1];
    assert e.tracker.index["r1"] == ("acct", "x");
  }

  /** The first of the two has been reported under the id x. */
  const FIRST_X := Engine(
    Tracker([Stored("r1", "x", "open", Open), Stored("r2", "local_2", "pending", Submitting)],
            map[("acct", "x") := 0, ("acct", "local_2") := 1],
            map["r1" := ("acct", "x"), "r2" := ("acct", "local_2")]),
    {"acct"}, [Placing(1, "r2", "acct")], ["r1", "r2"])

  lemma FirstIsReKeyed()
    ensures Valid(TWO_PLACING)
    ensures PlaceReKeys(TWO_PLACING.tracker, 0, "acct", OPEN_AS_X.result)
         == Tracker(TWO_PLACING.tracker.records, FIRST_X.tracker.orders, FIRST_X.tracker.index)
  {
    assert "x"[0] != "local_1"[0];
    MovesKey(TWO_PLACING.tracker.orders, FIRST_X.tracker.orders, ("acct", "local_1"), ("acct", "x"), 0);
    assert TWO_PLACING.tracker.index["r1" := ("acct", "x")] == FIRST_X.tracker.index;
  }

  lemma MovesKey(orders: map<Key, nat>, orders': map<Key, nat>, old_: Key, new_: Key, h: nat)
    requires orders'.Keys == orders.Keys - {old_} + {new_} && orders'[new_] == h
    requires forall k <- orders' :: k != new_ ==> orders'[k] == orders[k]
    ensures (orders - {old_})[new_ := h] == orders'
  {
  }

  lemma FirstIsX()
    ensures Valid(TWO_PLACING) && Valid(FIRST_X) && Step(TWO_PLACING, Event.Resume(0, OPEN_AS_X)).engine == FIRST_X
  {
    FirstIsReKeyed();
    assert MapExchangeStatus("open") == Open;
    var e := Step(TWO_PLACING, Event.Resume(0, OPEN_AS_X)).engine;
    assert e.tracker.records == FIRST_X.tracker.records && e.calls == FIRST_X.calls;
  }

  // ------------------------------------------------------------------ an answer that comes too early

  /** The first order is still being placed, yet a query about it was answered under another id. */
  const ANSWERED := Engine(
    Tracker([Stored("r1", "x", "open", Open)], map[("acct", "local_1") := 0], map["r1" := ("acct", "local_1")]),
    {"acct"}, [Placing(0, "r1", "acct")], ["r1"])

  /** Then two more orders were reported under that id. */
  const CROWDED := Engine(
    Tracker([Stored("r1", "x", "open", Open), Stored("r2", "x", "open", Open), Stored("r3", "x", "open", Open)],
            map[("acct", "local_1") := 0, ("acct", "x") := 2],
            map["r1" := ("acct", "local_1"), "r2" := ("acct", "x"), "r3" := ("acct", "x")]),
    {"acct"}, [Placing(0, "r1", "acct")], ["r1", "r2", "r3"])

  const OPEN_AS_X := Ok(Result("x", "x", "open"))

  lemma {:induction false} AnsweredTooEarly(rest: seq<Event>, e': Engine)
    requires Leads(ANSWERED, rest, e')
    ensures Leads(ONE_PLACING, [Sync("acct", "local_1")] + ([Event.Resume(1, OPEN_AS_X)] + rest), e')
  {
    var asked := Step(ONE_PLACING, Sync("acct", "local_1")).engine;
    assert asked == ONE_PLACING.(calls := [Placing(0, "r1", "acct"), Querying(0, "acct", "local_1")]);
    assert MapExchangeStatus("open") == Open;
    var e := Step(asked, Event.Resume(1, OPEN_AS_X)).engine;
    assert e.calls == ANSWERED.calls && e.tracker.records == ANSWERED.tracker.records;
    LeadsBy(asked, Event.Resume(1, OPEN_AS_X), ANSWERED, rest, e');
    LeadsBy(ONE_PLACING, Sync("acct", "local_1"), asked, [Event.Resume(1, OPEN_AS_X)] + rest, e');
  }

  /** One more placement under way. */
  function WithWaiting(e: Engine, k: string): Engine {
    var h, t := |e.tracker.records|, e.tracker;
    Engine(
      Tracker(t.records + [Stored("r" + k, "local_" + k, "pending", Submitting)],
              t.orders[("acct", "local_" + k) := h], t.index["r" + k := ("acct", "local_" + k)]),
      e.adapters, e.calls + [Placing(h, "r" + k, "acct")], e.executed + ["r" + k])
  }

  /** One more order reported under the id x, whoever has it. */
  function WithX(e: Engine, k: string): Engine {
    var h, t := |e.tracker.records|, e.tracker;
    Engine(
      Tracker(
        t.records + [Stored("r" + k, "x", "open", Open)],
        t.orders[("acct", "x") := h],
        t.index["r" + k := ("acct", "x")]),
      e.adapters, e.calls, e.executed + ["r" + k])
  }

  ghost predicate Roomy(e: Engine, k: string) {
    && Valid(e) && e.adapters == {"acct"} && e.calls == [Placing(0, "r1", "acct")]
    && "r" + k !in e.tracker.index && ("acct", "local_" + k) !in e.tracker.orders && "local_" + k != "x"
  }

  lemma PlacingWaits(e: Engine, k: string)
    requires Roomy(e, k)
    ensures Step(e, PlaceOne(k)).engine == WithWaiting(e, k) && Valid(WithWaiting(e, k))
  {
    var placed := Step(e, PlaceOne(k)).engine;
    assert placed.tracker.records == WithWaiting(e, k).tracker.records;
    assert placed.tracker.orders == WithWaiting(e, k).tracker.orders;
    assert placed.tracker.index == WithWaiting(e, k).tracker.index;
  }

  lemma ReportedAsX(e: Engine, k: string)
    requires Roomy(e, k) && Valid(WithWaiting(e, k))
    ensures Step(WithWaiting(e, k), Event.Resume(1, OPEN_AS_X)).engine == WithX(e, k)
  {
    assert MapExchangeStatus("open") == Open;
    var reported := Step(WithWaiting(e, k), Event.Resume(1, OPEN_AS_X)).engine;
    assert reported.calls == e.calls;
    assert reported.tracker.records == WithX(e, k).tracker.records;
    assert reported.tracker.orders == WithX(e, k).tracker.orders;
    assert reported.tracker.index == WithX(e, k).tracker.index;
  }

  lemma {:induction false} PlacedAsX(e: Engine, k: string, rest: seq<Event>, e': Engine)
    requires Roomy(e, k) && Leads(WithX(e, k), rest, e')
    ensures Leads(e, [PlaceOne(k)] + ([Event.Resume(1, OPEN_AS_X)] + rest), e')
  {
    PlacingWaits(e, k);
    ReportedAsX(e, k);
    LeadsBy(WithWaiting(e, k), Event.Resume(1, OPEN_AS_X), WithX(e, k), rest, e');
    LeadsBy(e, PlaceOne(k), WithWaiting(e, k), [Event.Resume(1, OPEN_AS_X)] + rest, e');
  }

  /** Once the first placement ends under yet another id, the second request has lost its order. */
  lemma CrowdedLosesOne() returns (e: Engine)
    ensures Leads(CROWDED, [Event.Resume(0, AS_Y)] + [PlaceOne("2")], e) && e.executed == ["r1", "r2", "r3", "r2"]
  {
    var ended := FirstIsY();
    e := SecondIsSentAgain(ended);
    LeadsBy(ended, PlaceOne("2"), e, [], e);
    LeadsBy(CROWDED, Event.Resume(0, AS_Y), ended, [PlaceOne("2")] + [], e);
    assert [PlaceOne("2")] + [] == [PlaceOne("2")];
  }

  lemma FirstIsY() returns (ended: Engine)
    ensures Valid(CROWDED) && ended == Step(CROWDED, Event.Resume(0, AS_Y)).engine && Valid(ended)
    ensures ended.tracker.ByRequest("r2").None? && "acct" in ended.adapters && ended.executed == CROWDED.executed
  {
    ended := Step(CROWDED, Event.Resume(0, AS_Y)).engine;
    CrowdedIsReKeyed();
    assert MapExchangeStatus("partially_filled") == PartiallyFilled;
  }

  lemma CrowdedIsReKeyed()
    ensures
      var t := PlaceReKeys(CROWDED.tracker, 0, "acct", AS_Y.result);
      t == CROWDED.tracker.(orders := map[("acct", "local_1") := 0, ("acct", "y") := 2], index := t.index)
        && "r2" in t.index && t.index["r2"] == ("acct", "x")
  {
    assert "x"[0] != "y"[0] && "x"[0] != "local_1"[0];
    var t := PlaceReKeys(CROWDED.tracker, 0, "acct", AS_Y.result);
    assert t.orders == map[("acct", "local_1") := 0, ("acct", "y") := 2];
  }

  lemma SecondIsSentAgain(ended: Engine) returns (e: Engine)
    requires Valid(ended) && ended.tracker.ByRequest("r2").None? && "acct" in ended.adapters
    ensures e == Step(ended, PlaceOne("2")).engine && e.executed == ended.executed + ["r2"]
  {
    assert "r" + "2" == "r2";
    e := Step(ended, PlaceOne("2")).engine;
  }

  const AS_Y := Ok(Result("y", "y", "partially_filled"))

  lemma RoomForTwoMore()
    ensures Roomy(ANSWERED, "2") && Roomy(WithX(ANSWERED, "2"), "3")
  {
    assert "r" + "2" == "r2" && "local_" + "2" == "local_2" && "r" + "3" == "r3" && "local_" + "3" == "local_3";
    assert "local_2"[0] != "x"[0] && "local_3"[0] != "x"[0];
  }

  lemma TwoMoreAreCrowded()
    ensures WithX(WithX(ANSWERED, "2"), "3") == CROWDED
  {
    assert "r" + "2" == "r2" && "r" + "3" == "r3";
    var e := WithX(WithX(ANSWERED, "2"), "3");
    assert e.tracker.records == CROWDED.tracker.records && e.tracker.orders == CROWDED.tracker.orders;
    assert e.tracker.index == CROWDED.tracker.index;
  }

  lemma {:induction false} FromOnePlacing(rest: seq<Event>, e': Engine)
    requires Leads(ONE_PLACING, rest, e')
    ensures Reachable(e')
  {
    FirstPlacement();
    LeadsBy(FRESH, PlaceOne("1"), ONE_PLACING, rest, e');
  }

  lemma {:induction false} FromTwoMore(rest: seq<Event>, e': Engine)
    requires Roomy(ANSWERED, "2") && Roomy(WithX(ANSWERED, "2"), "3")
    requires Leads(WithX(WithX(ANSWERED, "2"), "3"), rest, e')
    ensures Reachable(e')
  {
    PlacedAsX(WithX(ANSWERED, "2"), "3", rest, e');
    var from3 := [PlaceOne("3")] + ([Event.Resume(1, OPEN_AS_X)] + rest);
    PlacedAsX(ANSWERED, "2", from3, e');
    var from2 := [PlaceOne("2")] + ([Event.Resume(1, OPEN_AS_X)] + from3);
    AnsweredTooEarly(from2, e');
    FromOnePlacing([Sync("acct", "local_1")] + ([Event.Resume(1, OPEN_AS_X)] + from2), e');
  }

  /** What ExecutionOnce asks of queries is needed: answered under another id while it is being placed, an
      order takes that id from others when its placement ends, and one of their requests is sent again. */
  lemma AnsweredTooEarlySendsTwice() returns (e: Engine)
    ensures Reachable(e) && e.executed == ["r1", "r2", "r3", "r2"]
  {
    e := CrowdedLosesOne();
    RoomForTwoMore();
    TwoMoreAreCrowded();
    FromTwoMore([Event.Resume(0, AS_Y)] + [PlaceOne("2")], e);
  }
}
