/** `GridEngine` for one instance: its slice of the store and of the breaker dictionary, updated in
    place. The answers of the execution engine come in as a sequence, one per planned action. */
module GridEngines {
  import opened Options
  import opened Grid
  import opened CircuitBreaker
  import opened GridMachine

  class GridEngine {
    var status: GridStatus
    var levels: seq<Level>
    var totalCycles: nat
    var totalProfit: real
    var currentPrice: Option<real>
    var breaker: CircuitBreakerState?
    /** Orders and cancellations handed to the execution engine during the current handler. */
    ghost var sent: seq<Action>

    function View(): State reads this { State(status, levels, totalCycles, totalProfit, currentPrice) }

    function BreakerView(): Option<Breaker>
      reads this, breaker
    {
      if breaker == null then None else Some(breaker.View())
    }

    /** The handler did what GridMachine.Step says. */
    ghost predicate Did(out: Outcome, raised: bool)
      reads this, breaker
    {
      out == Outcome(View(), BreakerView(), raised, sent)
    }

    /** `initialize_grid` with the levels of the calculator. */
    constructor (levels: seq<Level>)
      ensures View() == State(Initialized, levels, 0, 0.0, None) && BreakerView() == None
    {
      status, this.levels := Initialized, levels;
      totalCycles, totalProfit, currentPrice, breaker, sent := 0, 0.0, None, null, [];
    }

    method InstallBreaker(b: CircuitBreakerState)
      modifies this`breaker
      ensures BreakerView() == Some(b.View()) && breaker == b
    {
      breaker := b;
    }

    method GetLevel(number: int) returns (i: nat)
      ensures i == IndexOf(levels, number)
    {
      i := 0;
      while i < |levels| && levels[i].number != number
        invariant i <= |levels| && forall j | 0 <= j < i :: levels[j].number != number
      {
        i := i + 1;
      }
    }

    /** `transition_level` on a level that exists: false stands for InvalidStateTransition. */
    method TransitionLevel(i: nat, to: LevelStatus) returns (ok: bool)
      requires i < |levels|
      modifies this`levels
      ensures ok == (to in LevelTransitions(old(levels)[i].status))
      ensures levels == if ok then old(levels)[i := old(levels)[i].(status := to)] else old(levels)
    {
      ok := to in LevelTransitions(levels[i].status);
      if ok {
        levels := levels[i := levels[i].(status := to)];
      }
    }

    method PlaceOrder(a: Action, answer: Option<OrderId>) returns (raised: bool)
      requires a.kind in {PlaceBuy, PlaceSell}
      modifies this`levels, this`sent
      ensures
        var d := Do(old(levels), a, answer);
        levels == d.levels && raised == d.raised && sent == old(sent) + d.sent
    {
      sent := sent + [a];
      if answer.None? {
        return true;
      }
      var i := GetLevel(a.level);
      if i == |levels| {
        return true;
      }
      if a.kind == PlaceBuy {
        levels := levels[i := levels[i].(buyId := answer)];
      } else {
        levels := levels[i := levels[i].(sellId := answer)];
      }
      var ok := TransitionLevel(i, Open);
      return !ok;
    }

    method CancelOrder(a: Action, answer: Option<OrderId>) returns (raised: bool)
      requires a.kind in {CancelBuy, CancelSell}
      modifies this`levels, this`sent
      ensures
        var d := Do(old(levels), a, answer);
        levels == d.levels && raised == d.raised && sent == old(sent) + d.sent
    {
      if a.orderId.None? {
        return false;
      }
      sent := sent + [a];
      if answer.None? {
        return true;
      }
      var i := GetLevel(a.level);
      if i == |levels| {
        return true;
      }
      if a.kind == CancelBuy {
        levels := levels[i := levels[i].(buyId := None)];
      } else {
        levels := levels[i := levels[i].(sellId := None)];
      }
      var ok := TransitionLevel(i, Cancelled);
      return !ok;
    }

    /** The body of the loop over the actions of a plan. */
    method Perform(a: Action, buys: bool, answer: Option<OrderId>) returns (raised: bool)
      modifies this`levels, this`sent
      ensures
        var d := Performed(old(levels), a, buys, answer);
        levels == d.levels && raised == d.raised && sent == old(sent) + d.sent
    {
      raised := false;
      if a.kind in {CancelBuy, CancelSell} {
        raised := CancelOrder(a, answer);
      } else if a.kind == PlaceSell || buys {
        raised := PlaceOrder(a, answer);
      }
    }

    method ExecutePlan(plan: seq<Action>, buys: bool, answers: seq<Option<OrderId>>) returns (raised: bool)
      modifies this`levels, this`sent
      ensures var d := Execute(old(levels), plan, 0, buys, answers);
        levels == d.levels && raised == d.raised && sent == old(sent) + d.sent
    {
      ghost var all, done := Execute(levels, plan, 0, buys, answers), [];
      for k := 0 to |plan|
        invariant sent == old(sent) + done && Remains(all, done, Execute(levels, plan, k, buys, answers))
      {
        ghost var d := Performed(levels, plan[k], buys, Answer(answers, k));
        RoundRemains(all, done, levels, plan, k, buys, answers);
        raised := Perform(plan[k], buys, Answer(answers, k));
        assert (old(sent) + done) + d.sent == old(sent) + (done + d.sent);
        done := done + d.sent;
        if raised {
          return true;
        }
      }
      NothingRemains(all, done, levels, false);
      return false;
    }

    method CancelAllPendingBuys(works: set<int>)
      modifies this`levels
      ensures levels == ClearPending(old(levels), works)
    {
      var k := 0;
      while k < |levels|
        invariant k <= |levels| == |old(levels)|
        invariant forall i | 0 <= i < |levels| ::
          levels[i] == if i < k then ClearPending(old(levels), works)[i] else old(levels)[i]
      {
        var lv := levels[k];
        if lv.status == Waiting && lv.buyId.Some? && lv.number in works {
          levels := levels[k := lv.(buyId := None)];
        }
        k := k + 1;
      }
    }

    method ActivateGrid(price: real, answers: seq<Option<OrderId>>) returns (raised: bool)
      modifies this
      ensures breaker == old(breaker) && Did(Step(old(View()), old(BreakerView()), Activate(price, answers)), raised)
    {
      sent := [];
      if Active !in GridTransitions(status) {
        return true;
      }
      status := Active;
      currentPrice := Some(price);
      var plan := PlanInitial(levels, price);
      raised := ExecutePlan(plan, true, answers);
    }

    method ResumeGrid(price: real, answers: seq<Option<OrderId>>) returns (raised: bool)
      modifies this
      ensures breaker == old(breaker) && Did(Step(old(View()), old(BreakerView()), Resume(price, answers)), raised)
    {
      sent := [];
      if Active !in GridTransitions(status) {
        return true;
      }
      status := Active;
      currentPrice := Some(price);
      var plan := MakePlan(levels, price, false, 1.0);
      raised := ExecutePlan(plan, true, answers);
    }

    method CloseAllGridOrders(answers: seq<Option<OrderId>>) returns (raised: bool)
      modifies this
      ensures breaker == old(breaker) && Did(Step(old(View()), old(BreakerView()), CloseAll(answers)), raised)
    {
      sent := [];
      var plan := PlanCancelAll(levels);
      raised := ExecutePlan(plan, true, answers);
    }

    method PauseGrid(answers: seq<Option<OrderId>>) returns (raised: bool)
      modifies this
      ensures breaker == old(breaker) && Did(Step(old(View()), old(BreakerView()), Pause(answers)), raised)
    {
      raised := CloseAllGridOrders(answers);
      if raised {
        return;
      }
      if Paused !in GridTransitions(status) {
        return true;
      }
      status := Paused;
    }

    method OnBuyFilled(n: int, answer: Option<OrderId>) returns (raised: bool)
      modifies this
      ensures breaker == old(breaker) && Did(Step(old(View()), old(BreakerView()), BuyFill(n, answer)), raised)
    {
      sent := [];
      var i := GetLevel(n);
      if i == |levels| {
        return true;
      }
      var ok := TransitionLevel(i, Filled);
      if !ok {
        return true;
      }
      levels := levels[i := levels[i].(buyId := None)];
      assert levels == old(levels)[i := old(levels)[i].(status := Filled, buyId := None)];
      raised := false;
      if status == Active {
        raised := PlaceOrder(Action(n, PlaceSell, levels[i].sellPrice, levels[i].quantity, None), answer);
      }
    }

    method OnSellFilled(n: int, fill: real, quantity: real) returns (raised: bool)
      modifies this
      ensures breaker == old(breaker) && Did(Step(old(View()), old(BreakerView()), SellFill(n, fill, quantity)), raised)
    {
      sent := [];
      var i := GetLevel(n);
      if i == |levels| {
        return true;
      }
      var ok := TransitionLevel(i, TpHit);
      if !ok {
        return true;
      }
      var lv := levels[i].(sellId := None);
      levels := levels[i := lv];
      totalCycles := totalCycles + 1;
      assert lv.buyPrice == old(levels)[i].buyPrice;
      assert Gain(lv, fill, quantity) == Gain(old(levels)[i], fill, quantity);
      totalProfit := totalProfit + Gain(lv, fill, quantity);
      if status == Active {
        var _ := TransitionLevel(i, Waiting);
      }
      ghost var after := if status == Active then Waiting else TpHit;
      assert levels == old(levels)[i := old(levels)[i].(status := after, sellId := None)];
      return false;
    }

    /** The resume logic of a price update, on a breaker that is triggered or not. */
    method PassGate(price: real, reversal: Option<bool>, gate: bool) returns (passed: bool)
      requires breaker != null
      modifies breaker
      ensures (breaker.View(), passed) == Resumed(old(breaker.View()), price, reversal, gate)
    {
      if !breaker.triggered {
        return gate;
      }
      breaker.UpdateBottom(price);
      match breaker.mode
      case WidenStep =>
        if reversal == Some(true) {
          breaker.Reset();
        }
        return true;
      case TrailingBuy =>
        if ShouldResume(breaker.View(), price) {
          breaker.Reset();
          return true;
        }
        return false;
      case TaConfirm =>
        if reversal == Some(true) {
          breaker.Reset();
          return true;
        }
        return false;
    }

    /** The head of a price update: day rollover and trip, with the cancellation of pending buys, and what the
        planner is told about the breaker. */
    method CheckBreaker(m: Market) returns (tripped: bool, active: bool, multiplier: real)
      modifies this`levels, breaker
      ensures BreakerView() == Checked(old(BreakerView()), m)
      ensures
        var (widen, _, _, trips) := Regime(old(BreakerView()), m);
        StepSize(active, multiplier) == widen && tripped == trips
      ensures levels == if tripped then ClearPending(old(levels), m.works) else old(levels)
    {
      tripped, active, multiplier := false, false, 1.0;
      if breaker != null {
        breaker.CheckNewDay(m.price, m.today);
        if ShouldTrigger(breaker.View(), m.price) {
          breaker.Trigger(m.price);
          tripped := true;
          CancelAllPendingBuys(m.works);
        }
        active := breaker.triggered;
        multiplier := WidenFactor(breaker.View());
      }
    }

    /** The tail of a price update: the gate, and the plan as far as it lets it through. */
    method GateAndExecute(m: Market, plan: seq<Action>, justTriggered: bool) returns (raised: bool)
      modifies this`levels, this`sent, breaker
      ensures BreakerView() == Gated(old(BreakerView()), m).0
      ensures var d := Execute(old(levels), plan, 0, Gated(old(BreakerView()), m).1 && !justTriggered, m.answers);
        levels == d.levels && raised == d.raised && sent == old(sent) + d.sent
    {
      var passed := m.gate;
      if breaker != null {
        passed := PassGate(m.price, m.reversal, m.gate);
      }
      raised := ExecutePlan(plan, passed && !justTriggered, m.answers);
    }

    method OnPriceUpdate(m: Market) returns (raised: bool)
      modifies this, breaker
      ensures breaker == old(breaker) && Did(Step(old(View()), old(BreakerView()), Price(m)), raised)
    {
      sent := [];
      if status != Active {
        return false;
      }
      currentPrice := Some(m.price);
      var justTriggered, active, multiplier := CheckBreaker(m);
      var plan := MakePlan(levels, m.price, active, multiplier);
      RegimeIsGated(old(BreakerView()), m);
      raised := GateAndExecute(m, plan, justTriggered);
    }
  }
}
