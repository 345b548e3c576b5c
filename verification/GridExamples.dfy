/** Short runs of one grid on which the engine does not do what it is documented to do. */
module GridExamples {
  import opened Options
  import opened Grid
  import opened CircuitBreaker
  import opened GridMachine
  import opened GridCoupling
  import opened GridRuns
  import Reconciler

  const WAITING := Level(0, 100.0, 150.0, 1.0, None, None, Waiting)

  const BUYING := WAITING.(buyId := Some("a"), status := Open)

  const SELLING := WAITING.(sellId := Some("s"), status := Open)

  const CANCELLED := WAITING.(status := Cancelled)

  /** A grid of one level. */
  function One(status: GridStatus, lv: Level, price: Option<real>): State { State(status, [lv], 0, 0.0, price) }

  lemma {:induction false} PlanOfOne(lv: Level, wish: Wish)
    ensures Plan([lv], wish) == if Wanted(lv, wish).Some? then [Wanted(lv, wish).value] else []
  {
    assert [lv][..0] == [] && Plan([], wish) == [];
  }

  /** Carrying out the plan of one level. */
  lemma {:induction false} ExecuteOne(lv: Level, wish: Wish, buys: bool, answers: seq<Option<OrderId>>)
    requires Wanted(lv, wish).None? || (Wanted(lv, wish).value.kind == PlaceBuy ==> buys)
    ensures Execute([lv], Plan([lv], wish), 0, buys, answers)
         == if Wanted(lv, wish).None? then Done([lv], false, [])
            else Do([lv], Wanted(lv, wish).value, Answer(answers, 0))
  {
    PlanOfOne(lv, wish);
    if Wanted(lv, wish).Some? {
      var d := Do([lv], Wanted(lv, wish).value, Answer(answers, 0));
      assert Execute(d.levels, Plan([lv], wish), 1, buys, answers) == Done(d.levels, false, []);
      assert d.sent + [] == d.sent;
    }
  }

  const ACTIVATED := One(Active, BUYING, Some(110.0))

  /** Activation above the level's buy price puts its buy out. */
  lemma ActivationBuys(breaker: Option<Breaker>)
    ensures Step(One(Initialized, WAITING, None), breaker, Activate(110.0, [Some("a")])).state == ACTIVATED
  {
    ExecuteOne(WAITING, Initial(110.0), true, [Some("a")]);
    assert IndexOf([WAITING], 0) == 0;
    assert [WAITING][0 := BUYING] == [BUYING];
  }

  // ------------------------------------------------------------------ reconciling

  lemma FillSells(breaker: Option<Breaker>)
    ensures Step(ACTIVATED, breaker, BuyFill(0, Some("s"))).state == One(Active, SELLING, Some(110.0))
  {
    var filled := BUYING.(status := Filled, buyId := None);
    assert IndexOf([BUYING], 0) == 0 && IndexOf([filled], 0) == 0;
    assert [BUYING][0 := filled] == [filled] && [filled][0 := SELLING] == [SELLING];
  }

  /** Activate, fill the buy, and find its sell cancelled on the exchange: reconciling leaves the level OPEN
      without an order instead of WAITING. */
  lemma CancelledSellDoesNotWait() returns (ws: seq<World>, es: seq<Event>)
    ensures Untouched([WAITING]) && Behaviour(ws, es, [WAITING]) && |es| == 2 && ws[2].state.levels == [SELLING]
    ensures Reconciler.AllReconciled(ws[2].state.levels, map["s" := "cancelled"])
         == [SELLING.(sellId := None)]
    ensures SELLING.(sellId := None).status == Open && SELLING.buyId == None
  {
    ActivationBegins();
    FillSells(None);
    var fill := BuyFill(0, Some("s"));
    var selling := World(One(Active, SELLING, Some(110.0)), None, [Bought(0)]);
    assert GridRuns.Next(BEGUN, fill) == selling;
    assert IndexOf([BUYING], 0) == 0;
    ws, es := [Start([WAITING]), BEGUN], [Activate(110.0, [Some("a")])];
    RunGoesOn(ws, es, [WAITING], fill, selling);
    ws, es := ws + [selling], es + [fill];
    SoldLevelStrands();
  }

  lemma SoldLevelStrands()
    ensures Reconciler.Reconciled(SELLING, map["s" := "cancelled"]) == SELLING.(sellId := None)
  {
    assert "cancelled"[0] != "filled"[0];
  }

  // ------------------------------------------------------------------ pausing

  lemma RunBegins(levels: seq<Level>)
    ensures Behaviour([Start(levels)], [], levels)
  {
  }

  lemma RunGoesOn(ws: seq<World>, es: seq<Event>, levels: seq<Level>, e: Event, w: World)
    requires Behaviour(ws, es, levels) && Reported(ws[|es|].state, e) && GridRuns.Next(ws[|es|], e) == w
    ensures Behaviour(ws + [w], es + [e], levels)
  {
  }

  const BEGUN := World(ACTIVATED, None, [])

  lemma ActivationBegins()
    ensures Untouched([WAITING]) && Behaviour([Start([WAITING]), BEGUN], [Activate(110.0, [Some("a")])], [WAITING])
  {
    ActivationBuys(None);
    RunBegins([WAITING]);
    assert GridRuns.Next(Start([WAITING]), Activate(110.0, [Some("a")])) == BEGUN;
    RunGoesOn([Start([WAITING])], [], [WAITING], Activate(110.0, [Some("a")]), BEGUN);
    assert [Start([WAITING])] + [BEGUN] == [Start([WAITING]), BEGUN];
    assert [] + [Activate(110.0, [Some("a")])] == [Activate(110.0, [Some("a")])];
  }

  /** Activate, pause, resume: the exchange does all it is asked, and the level ends without an order. */
  lemma PausedForGood() returns (ws: seq<World>, es: seq<Event>)
    ensures Untouched([WAITING]) && Behaviour(ws, es, [WAITING])
    ensures |es| == 3 && es[1].Pause? && es[2].Resume?
    ensures ws[1].state.levels == [BUYING] && ws[3].state.levels == [CANCELLED] && ws[3].state.status == Active
  {
    var resume, resumed := Event.Resume(90.0, [Some("b")]), World(One(Active, CANCELLED, Some(90.0)), None, []);
    ws, es := PausedRun();
    ResumeSkipsCancelled();
    assert GridRuns.Next(PAUSED, resume) == resumed;
    RunGoesOn(ws, es, [WAITING], resume, resumed);
    ws, es := ws + [resumed], es + [resume];
  }

  const PAUSED := World(One(Paused, CANCELLED, Some(110.0)), None, [])

  lemma PausedRun() returns (ws: seq<World>, es: seq<Event>)
    ensures Untouched([WAITING]) && Behaviour(ws, es, [WAITING])
    ensures |es| == 2 && es[1].Pause? && ws[1] == BEGUN && ws[2] == PAUSED
  {
    var pause := Pause([Some("a")]);
    ActivationBegins();
    PauseCancelsOne();
    assert GridRuns.Next(BEGUN, pause) == PAUSED;
    ws, es := [Start([WAITING]), BEGUN], [Activate(110.0, [Some("a")])];
    RunGoesOn(ws, es, [WAITING], pause, PAUSED);
    ws, es := ws + [PAUSED], es + [pause];
  }

  lemma PauseCancelsOne()
    ensures Step(ACTIVATED, None, Pause([Some("a")])) ==
      Outcome(One(Paused, CANCELLED, Some(110.0)), None, false, [Wanted(BUYING, CancelAll).value])
  {
    ExecuteOne(BUYING, CancelAll, true, [Some("a")]);
    assert IndexOf([BUYING], 0) == 0;
    assert [BUYING][0 := CANCELLED] == [CANCELLED];
  }

  lemma ResumeSkipsCancelled()
    ensures Step(One(Paused, CANCELLED, Some(110.0)), None, Event.Resume(90.0, [Some("b")])).state
         == One(Active, CANCELLED, Some(90.0))
  {
    ExecuteOne(CANCELLED, Trade(90.0, 1), true, [Some("b")]);
  }

  // ------------------------------------------------------------------ tripping

  const BREAKER := Breaker(5.0, TaConfirm, 5.0, 2.0, None, false, None, None, None)

  const WATCHING := BREAKER.(dayOpen := Some(120.0), triggerDate := Some(1))

  const TRIPPED := WATCHING.(triggered := true, triggerPrice := Some(105.0), bottom := Some(105.0))

  function PriceOn(price: real): Event { Price(Market(price, 1, None, true, {0}, [Some("b")])) }

  /** Activate, configure the breaker, open the day at 120 and fall to 105: the breaker trips, and the buy is
      outstanding as before, although its cancellation would have worked. */
  lemma TrippedWithBuyOutstanding() returns (ws: seq<World>, es: seq<Event>)
    ensures Untouched([WAITING]) && Behaviour(ws, es, [WAITING])
    ensures |es| == 4 && es[3] == PriceOn(105.0) && ws[3].breaker.Some?
    ensures Ticked(ws[3].breaker.value, 105.0, 1, None, true).tripped
    ensures ws[3].state.levels == ws[4].state.levels == [BUYING]
  {
    var installed := World(ACTIVATED, Some(BREAKER), []);
    var watching := World(One(Active, BUYING, Some(120.0)), Some(WATCHING), []);
    var tripped := World(One(Active, BUYING, Some(105.0)), Some(TRIPPED), []);
    ActivationBegins();
    assert GridRuns.Next(BEGUN, Install(BREAKER)) == installed;
    ws, es := [Start([WAITING]), BEGUN], [Activate(110.0, [Some("a")])];
    RunGoesOn(ws, es, [WAITING], Install(BREAKER), installed);
    ws, es := ws + [installed], es + [Install(BREAKER)];
    DayOpens();
    RunGoesOn(ws, es, [WAITING], PriceOn(120.0), watching);
    ws, es := ws + [watching], es + [PriceOn(120.0)];
    BreakerTrips();
    RunGoesOn(ws, es, [WAITING], PriceOn(105.0), tripped);
    ws, es := ws + [tripped], es + [PriceOn(105.0)];
  }

  lemma DayOpens()
    ensures GridRuns.Next(World(ACTIVATED, Some(BREAKER), []), PriceOn(120.0))
         == World(One(Active, BUYING, Some(120.0)), Some(WATCHING), [])
  {
    ExecuteOne(BUYING, Trade(120.0, 1), true, [Some("b")]);
  }

  lemma BreakerTrips()
    ensures Ticked(WATCHING, 105.0, 1, None, true).tripped
    ensures GridRuns.Next(World(One(Active, BUYING, Some(120.0)), Some(WATCHING), []), PriceOn(105.0))
         == World(One(Active, BUYING, Some(105.0)), Some(TRIPPED), [])
  {
    assert ClearPending([BUYING], {0}) == [BUYING];
    ExecuteOne(BUYING, Trade(105.0, 1), false, [Some("b")]);
  }
}
