/** Short runs from a new grid in which one handler runs while another waits for the exchange. */
module GridOverlaps {
  import opened Options
  import opened Grid
  import opened CircuitBreaker
  import opened GridMachine
  import opened GridCoupling
  import opened GridAwaits
  import GridExamples

  const WAITING := GridExamples.WAITING

  const BUY := Action(0, PlaceBuy, 100.0, 1.0, None)

  const SELL := Action(0, PlaceSell, 150.0, 1.0, None)

  const BUYING := Call([BUY], 0, true, false)

  const SELLING := Call([SELL], 0, true, false)

  lemma RunGoesOn(ws: seq<World>, inputs: seq<Input>, levels: seq<Level>, i: Input, w: World)
    requires Behaviour(ws, inputs, levels) && Valid(ws[|inputs|]) && Next(ws[|inputs|], i) == w
    ensures Behaviour(ws + [w], inputs + [i], levels)
  {
  }

  // ------------------------------------------------------------------ two buys for one level

  function At(lv: Level, price: real, calls: seq<Call>, sent: seq<Action>): World {
    World(State(Active, [lv], 0, 0.0, Some(price)), None, calls, sent)
  }

  const FIRST := At(WAITING, 110.0, [BUYING], [BUY])

  const BOTH := At(WAITING, 90.0, [BUYING, BUYING], [BUY, BUY])

  const BOUGHT := At(WAITING.(buyId := Some("a"), status := Open), 90.0, [BUYING], [BUY, BUY])

  const FILLED := At(WAITING.(status := Filled), 90.0, [BUYING, SELLING], [BUY, BUY, SELL])

  const SOLD := At(WAITING.(sellId := Some("s"), status := Open), 90.0, [BUYING], [BUY, BUY, SELL])

  const TORN := At(WAITING.(buyId := Some("b"), sellId := Some("s"), status := Open), 90.0, [], [BUY, BUY, SELL])

  const PRICE := Begin(Price(Market(90.0, 1, None, true, {}, [])))

  lemma ActivationWaits()
    ensures Next(Start([WAITING]), Begin(Activate(110.0, []))) == FIRST
  {
    GridExamples.PlanOfOne(WAITING, Initial(110.0));
  }

  lemma PriceWaitsToo()
    ensures Valid(FIRST) && Next(FIRST, PRICE) == BOTH
  {
    GridExamples.PlanOfOne(WAITING, Trade(90.0, 1));
  }

  lemma FirstIsAnswered()
    ensures Valid(BOTH) && Next(BOTH, Answered(0, Some("a"))) == BOUGHT
  {
    assert IndexOf([WAITING], 0) == 0;
  }

  lemma FirstIsFilled()
    ensures Valid(BOUGHT) && Next(BOUGHT, Begin(BuyFill(0, None))) == FILLED
  {
    assert IndexOf(BOUGHT.state.levels, 0) == 0;
  }

  lemma SellIsAnswered()
    ensures Valid(FILLED) && Next(FILLED, Answered(1, Some("s"))) == SOLD
  {
    assert IndexOf(FILLED.state.levels, 0) == 0;
  }

  lemma SecondIsAnswered()
    ensures Valid(SOLD) && Next(SOLD, Answered(0, Some("b"))) == TORN
    ensures !Harmless(SOLD, Answered(0, Some("b")))
  {
    assert IndexOf(SOLD.state.levels, 0) == 0;
  }

  /** An activation and a price update both wait for the buy of one level. The first is answered and fills, its
      sell is placed, and then the second buy is answered too: the level has both orders. */
  lemma SecondBuyTearsLevel() returns (ws: seq<World>, inputs: seq<Input>)
    ensures Behaviour(ws, inputs, [WAITING]) && Sound([WAITING]) && |inputs| == 6
    ensures ws[5] == SOLD && inputs[5] == Answered(0, Some("b")) && Sound(ws[5].state.levels)
    ensures Valid(ws[5]) && !Harmless(ws[5], inputs[5]) && !Sound(ws[6].state.levels)
    ensures ws[6].state.levels == [WAITING.(buyId := Some("b"), sellId := Some("s"), status := Open)]
  {
    ws, inputs := FilledFirst();
    SellIsAnswered();
    RunGoesOn(ws, inputs, [WAITING], Answered(1, Some("s")), SOLD);
    ws, inputs := ws + [SOLD], inputs + [Answered(1, Some("s"))];
    SecondIsAnswered();
    RunGoesOn(ws, inputs, [WAITING], Answered(0, Some("b")), TORN);
    ws, inputs := ws + [TORN], inputs + [Answered(0, Some("b"))];
    assert TORN.state.levels[0] in TORN.state.levels;
  }

  lemma FilledFirst() returns (ws: seq<World>, inputs: seq<Input>)
    ensures Behaviour(ws, inputs, [WAITING]) && |inputs| == 4 && ws[4] == FILLED
  {
    ws, inputs := BothWait();
    FirstIsAnswered();
    RunGoesOn(ws, inputs, [WAITING], Answered(0, Some("a")), BOUGHT);
    ws, inputs := ws + [BOUGHT], inputs + [Answered(0, Some("a"))];
    FirstIsFilled();
    RunGoesOn(ws, inputs, [WAITING], Begin(BuyFill(0, None)), FILLED);
    ws, inputs := ws + [FILLED], inputs + [Begin(BuyFill(0, None))];
  }

  lemma BothWait() returns (ws: seq<World>, inputs: seq<Input>)
    ensures Behaviour(ws, inputs, [WAITING]) && |inputs| == 2 && ws[2] == BOTH
  {
    ws, inputs := [Start([WAITING])], [];
    ActivationWaits();
    RunGoesOn(ws, inputs, [WAITING], Begin(Activate(110.0, [])), FIRST);
    ws, inputs := ws + [FIRST], inputs + [Begin(Activate(110.0, []))];
    PriceWaitsToo();
    RunGoesOn(ws, inputs, [WAITING], PRICE, BOTH);
    ws, inputs := ws + [BOTH], inputs + [PRICE];
  }

  // ------------------------------------------------------------------ a buy after the trip

  const SECOND := WAITING.(number := 1)

  const TWO_BUYS := [BUY, BUY.(level := 1)]

  /** A day that opened at 120. */
  const BREAKER := GridExamples.BREAKER.(dayOpen := Some(120.0))

  const TRIPPED := GridExamples.TRIPPED

  function Both(first: Level, price: real, breaker: Option<Breaker>, k: nat, sent: seq<Action>): World {
    World(State(Active, [first, SECOND], 0, 0.0, Some(price)), breaker, [Call(TWO_BUYS, k, true, false)], sent)
  }

  lemma {:induction false} PlanOfTwo(wish: Wish)
    ensures Plan([WAITING, SECOND], wish) ==
      (if Wanted(WAITING, wish).Some? then [Wanted(WAITING, wish).value] else [])
        + if Wanted(SECOND, wish).Some? then [Wanted(SECOND, wish).value] else []
  {
    assert [WAITING, SECOND][..1] == [WAITING];
    GridExamples.PlanOfOne(WAITING, wish);
  }

  lemma ActivationBuysTwo()
    ensures Next(Start([WAITING, SECOND]), Begin(Activate(110.0, []))) == Both(WAITING, 110.0, None, 0, [BUY])
  {
    PlanOfTwo(Initial(110.0));
    assert [BUY] + [BUY.(level := 1)] == TWO_BUYS;
  }

  const FALL := Market(105.0, 1, None, true, {}, [])

  const WATCHED := Both(WAITING, 110.0, Some(BREAKER), 0, [BUY])

  const AT_TRIP := Both(WAITING, 105.0, Some(TRIPPED), 0, [BUY])

  lemma TripsWhileWaiting()
    ensures Next(WATCHED, Begin(Price(FALL))) == AT_TRIP
  {
    assert Ticked(BREAKER, 105.0, 1, None, true).breaker == TRIPPED;
    assert ClearPending([WAITING, SECOND], {}) == [WAITING, SECOND];
    PlanOfTwo(Trade(105.0, 1));
  }

  lemma AnswerLetsBuyOut()
    ensures Valid(AT_TRIP)
    ensures Next(AT_TRIP, Answered(0, Some("a")))
         == Both(WAITING.(buyId := Some("a"), status := Open), 105.0, Some(TRIPPED), 1, TWO_BUYS)
  {
    assert IndexOf([WAITING, SECOND], 0) == 0;
    assert [BUY] + [BUY.(level := 1)] == TWO_BUYS;
  }

  /** An activation waits for the first of two buys while the price falls and the breaker trips. The answer then
      lets it send the second, although the breaker stops buying. */
  lemma BuysAfterTheTrip() returns (ws: seq<World>, inputs: seq<Input>)
    ensures Behaviour(ws, inputs, [WAITING, SECOND]) && |inputs| == 4 && inputs[2] == Begin(Price(FALL))
    ensures !Stopped(ws[2]) && Stopped(ws[3]) && Stopped(ws[4]) && SendsBuy(ws[3], ws[4])
  {
    var bought := Both(WAITING.(buyId := Some("a"), status := Open), 105.0, Some(TRIPPED), 1, TWO_BUYS);
    ws, inputs := WatchedWhileWaiting();
    TripsWhileWaiting();
    RunGoesOn(ws, inputs, [WAITING, SECOND], Begin(Price(FALL)), AT_TRIP);
    ws, inputs := ws + [AT_TRIP], inputs + [Begin(Price(FALL))];
    AnswerLetsBuyOut();
    RunGoesOn(ws, inputs, [WAITING, SECOND], Answered(0, Some("a")), bought);
    ws, inputs := ws + [bought], inputs + [Answered(0, Some("a"))];
    assert bought.sent == AT_TRIP.sent + [BUY.(level := 1)];
  }

  lemma WatchedWhileWaiting() returns (ws: seq<World>, inputs: seq<Input>)
    ensures Behaviour(ws, inputs, [WAITING, SECOND]) && |inputs| == 2 && ws[2] == WATCHED && Valid(WATCHED)
  {
    var activate, waiting := Begin(Activate(110.0, [])), WATCHED.(breaker := None);
    ActivationBuysTwo();
    ws, inputs := [Start([WAITING, SECOND])], [];
    RunGoesOn(ws, inputs, [WAITING, SECOND], activate, waiting);
    ws, inputs := ws + [waiting], inputs + [activate];
    RunGoesOn(ws, inputs, [WAITING, SECOND], Begin(Install(BREAKER)), WATCHED);
    ws, inputs := ws + [WATCHED], inputs + [Begin(Install(BREAKER))];
  }
}
