/** What each handler of the grid engine (engine.py) does to one grid, without trailing profit and
    without the manual force operations. */
module GridMachine {
  import opened Options
  import opened Grid
  import opened CircuitBreaker

  datatype State = State(status: GridStatus, levels: seq<Level>, cycles: nat, profit: real, price: Option<real>)

  /** `sent` are the orders and cancellations handed to the execution engine. */
  datatype Done = Done(levels: seq<Level>, raised: bool, sent: seq<Action>)

  function Freed(lv: Level, a: Action): Level {
    if a.kind == CancelBuy then lv.(buyId := None) else lv.(sellId := None)
  }

  function Named(lv: Level, a: Action, id: Option<OrderId>): Level {
    if a.kind == PlaceBuy then lv.(buyId := id) else lv.(sellId := id)
  }

  function Target(a: Action): LevelStatus { if a.kind in {PlaceBuy, PlaceSell} then Open else Cancelled }

  /** `_place_order` and `_cancel_order`: the answer is None when the execution engine raises. The id is
      written before the transition is checked. */
  function Do(levels: seq<Level>, a: Action, answer: Option<OrderId>): Done {
    if Target(a) == Cancelled && a.orderId.None? then Done(levels, false, [])
    else
      var i := IndexOf(levels, a.level);
      if answer.None? || i == |levels| then Done(levels, true, [a])
      else
        var lv := if Target(a) == Open then Named(levels[i], a, answer) else Freed(levels[i], a);
        if Target(a) in LevelTransitions(lv.status) then Done(levels[i := lv.(status := Target(a))], false, [a])
        else Done(levels[i := lv], true, [a])
  }

  function Answer(answers: seq<Option<OrderId>>, k: nat): Option<OrderId> { if k < |answers| then answers[k] else None }

  /** The loop over a plan from its k-th action on, stopping at the first exception; buys only if `buys`. */
  function Execute(levels: seq<Level>, plan: seq<Action>, k: nat, buys: bool, answers: seq<Option<OrderId>>): Done
    requires k <= |plan|
    decreases |plan| - k
  {
    if k == |plan| then Done(levels, false, [])
    else if plan[k].kind == PlaceBuy && !buys then Execute(levels, plan, k + 1, buys, answers)
    else
      var d := Do(levels, plan[k], Answer(answers, k));
      if d.raised then d
      else
        var rest := Execute(d.levels, plan, k + 1, buys, answers);
        rest.(sent := d.sent + rest.sent)
  }

  /** What the loop does about one action. */
  function Performed(levels: seq<Level>, a: Action, buys: bool, answer: Option<OrderId>): Done {
    if a.kind == PlaceBuy && !buys then Done(levels, false, []) else Do(levels, a, answer)
  }

  /** With `sent` handed over so far, `rest` is what remains of `all` that was to be done. */
  ghost predicate Remains(all: Done, sent: seq<Action>, rest: Done) {
    all.levels == rest.levels && all.raised == rest.raised && all.sent == sent + rest.sent
  }

  lemma NothingRemains(all: Done, sent: seq<Action>, levels: seq<Level>, raised: bool)
    requires Remains(all, sent, Done(levels, raised, []))
    ensures all == Done(levels, raised, sent)
  {
    assert sent + [] == sent;
  }

  /** One round of the loop over a plan. */
  lemma {:induction false} RoundRemains(
    all: Done, sent: seq<Action>, levels: seq<Level>, plan: seq<Action>, k: nat, buys: bool,
    answers: seq<Option<OrderId>>)
    requires k < |plan| && Remains(all, sent, Execute(levels, plan, k, buys, answers))
    ensures var d := Performed(levels, plan[k], buys, Answer(answers, k));
      && (d.raised ==> all == d.(sent := sent + d.sent))
      && (!d.raised ==> Remains(all, sent + d.sent, Execute(d.levels, plan, k + 1, buys, answers)))
  {
    if plan[k].kind == PlaceBuy && !buys {
      assert sent + [] == sent;
    }
  }

  /** `_cancel_all_pending_buys`: clears the buy ids of WAITING levels whose cancellation works. */
  function ClearPending(levels: seq<Level>, works: set<int>): (cleared: seq<Level>)
    ensures |cleared| == |levels|
  {
    seq(|levels|, i requires 0 <= i < |levels| =>
      if levels[i].status == Waiting && levels[i].buyId.Some? && levels[i].number in works
      then levels[i].(buyId := None) else levels[i])
  }

  /** Exactly the buys of WAITING levels whose cancellation works are cleared, and nothing else. */
  lemma ClearPendingClears(levels: seq<Level>, works: set<int>, i: nat)
    requires i < |levels|
    ensures var lv, lv' := levels[i], ClearPending(levels, works)[i];
      && lv'.buyId == (if lv.status == Waiting && lv.number in works then None else lv.buyId)
      && lv' == lv.(buyId := lv'.buyId)
  {
  }

  datatype Outcome = Outcome(state: State, breaker: Option<Breaker>, raised: bool, sent: seq<Action>)

  /** What the outside world contributes to a price update. */
  datatype Market = Market(
    price: real, today: int, reversal: Option<bool>, gate: bool, works: set<int>, answers: seq<Option<OrderId>>)

  function WidenFactor(b: Breaker): real { if b.triggered && b.mode == WidenStep then b.widen else 1.0 }

  /** The step the planner is given, the buys' permission and the breaker after the price. */
  function Regime(breaker: Option<Breaker>, m: Market): (nat, bool, Option<Breaker>, bool) {
    if breaker.None? then (1, m.gate, None, false)
    else
      var after := AfterTrip(breaker.value, m.price, m.today);
      var t := Ticked(breaker.value, m.price, m.today, m.reversal, m.gate);
      (StepSize(after.triggered, WidenFactor(after)), t.passed && !t.tripped, Some(t.breaker), t.tripped)
  }

  /** What the gate makes of the breaker after it may have tripped, and whether buys pass. */
  function Gated(breaker: Option<Breaker>, m: Market): (Option<Breaker>, bool) {
    if breaker.None? then (None, m.gate)
    else
      var (b, passed) := Resumed(breaker.value, m.price, m.reversal, m.gate);
      (Some(b), passed)
  }

  /** The breaker once it may have tripped. */
  function Checked(breaker: Option<Breaker>, m: Market): Option<Breaker> {
    if breaker.None? then None else Some(AfterTrip(breaker.value, m.price, m.today))
  }

  lemma RegimeIsGated(breaker: Option<Breaker>, m: Market)
    ensures var (widen, buys, breaker', tripped) := Regime(breaker, m);
      var (gated, passed) := Gated(Checked(breaker, m), m);
      breaker' == gated && buys == (passed && !tripped)
  {
  }

  function Priced(s: State, breaker: Option<Breaker>, m: Market): Outcome {
    if s.status != Active then Outcome(s, breaker, false, [])
    else
      var (widen, buys, breaker', tripped) := Regime(breaker, m);
      var levels := if tripped then ClearPending(s.levels, m.works) else s.levels;
      var d := Execute(levels, Plan(levels, Trade(m.price, widen)), 0, buys, m.answers);
      Outcome(s.(levels := d.levels, price := Some(m.price)), breaker', d.raised, d.sent)
  }

  /** `on_buy_filled`. */
  function BuyFilled(s: State, n: int, answer: Option<OrderId>): Done {
    var i := IndexOf(s.levels, n);
    if i == |s.levels| || Filled !in LevelTransitions(s.levels[i].status) then Done(s.levels, true, [])
    else
      var lv := s.levels[i].(status := Filled, buyId := None);
      if s.status == Active
      then Do(s.levels[i := lv], Action(n, PlaceSell, lv.sellPrice, lv.quantity, None), answer)
      else Done(s.levels[i := lv], false, [])
  }

  function Gain(lv: Level, fill: real, quantity: real): real { (fill - lv.buyPrice) * quantity }

  /** `on_sell_filled`; None is an exception. */
  function SellFilled(s: State, n: int, fill: real, quantity: real): Option<State> {
    var i := IndexOf(s.levels, n);
    if i == |s.levels| || TpHit !in LevelTransitions(s.levels[i].status) then None
    else
      var lv := s.levels[i].(status := if s.status == Active then Waiting else TpHit, sellId := None);
      var profit := s.profit + Gain(s.levels[i], fill, quantity);
      Some(s.(levels := s.levels[i := lv], cycles := s.cycles + 1, profit := profit))
  }

  /** A filled buy frees its id, and in an active grid the whole level is at once put up for sale at its sell price;
      if that raises the level stays filled. */
  lemma {:induction false} BuyFillEnds(s: State, n: int, answer: Option<OrderId>)
    ensures var i, d := IndexOf(s.levels, n), BuyFilled(s, n, answer);
      if i == |s.levels| || s.levels[i].status != Open then d == Done(s.levels, true, [])
      else
        var bought := s.levels[i].(status := Filled, buyId := None);
        if s.status != Active then d == Done(s.levels[i := bought], false, [])
        else
          && d.sent == [Action(n, PlaceSell, s.levels[i].sellPrice, s.levels[i].quantity, None)]
          && d.raised == answer.None?
          && d.levels == s.levels[i := if answer.None? then bought else bought.(status := Open, sellId := answer)]
  {
    if IndexOf(s.levels, n) < |s.levels| {
      IndexStands(s.levels, IndexOf(s.levels, n), n, s.levels[IndexOf(s.levels, n)].(status := Filled, buyId := None));
    }
  }

  lemma {:induction false} IndexStands(levels: seq<Level>, i: nat, n: int, lv: Level)
    requires i == IndexOf(levels, n) < |levels| && lv.number == n
    ensures IndexOf(levels[i := lv], n) == i
  {
    var updated := levels[i := lv];
    assert updated[i].number == n;
    assert forall k | 0 <= k < i :: updated[k] == levels[k];
  }

  /** A filled sell counts a cycle and what it earned, and frees the level: to wait again in an active grid. */
  lemma {:induction false} SellFillEnds(s: State, n: int, fill: real, quantity: real)
    ensures var i, sold := IndexOf(s.levels, n), SellFilled(s, n, fill, quantity);
      && (sold.None? <==> i == |s.levels| || s.levels[i].status !in {Open, Filled})
      && (sold.Some? ==>
            var freed := s.levels[i].(sellId := None, status := if s.status == Active then Waiting else TpHit);
            sold.value == State(
              s.status, s.levels[i := freed], s.cycles + 1,
              s.profit + (fill - s.levels[i].buyPrice) * quantity, s.price))
  {
  }

  datatype Event =
    | Price(market: Market)
    | BuyFill(level: int, answer: Option<OrderId>)
    | SellFill(level: int, fill: real, quantity: real)
    | Activate(price: real, answers: seq<Option<OrderId>>)
    | Resume(price: real, answers: seq<Option<OrderId>>)
    | Pause(answers: seq<Option<OrderId>>)
    | CloseAll(answers: seq<Option<OrderId>>)
    | Install(breaker: Breaker)

  /** `activate_grid` and `resume_grid`. */
  function Started(s: State, breaker: Option<Breaker>, wish: Wish, price: real,
      answers: seq<Option<OrderId>>): Outcome
  {
    if Active !in GridTransitions(s.status) then Outcome(s, breaker, true, [])
    else
      var d := Execute(s.levels, Plan(s.levels, wish), 0, true, answers);
      Outcome(s.(status := Active, price := Some(price), levels := d.levels), breaker, d.raised, d.sent)
  }

  /** `close_all_grid_orders`, followed by the transition when it is `pause_grid`. */
  function Closed(s: State, breaker: Option<Breaker>, pause: bool, answers: seq<Option<OrderId>>): Outcome {
    var d := Execute(s.levels, Plan(s.levels, CancelAll), 0, true, answers);
    var s' := s.(levels := d.levels);
    if d.raised || !pause then Outcome(s', breaker, d.raised, d.sent)
    else if Paused !in GridTransitions(s.status) then Outcome(s', breaker, true, d.sent)
    else Outcome(s'.(status := Paused), breaker, false, d.sent)
  }

  function Step(s: State, breaker: Option<Breaker>, e: Event): Outcome {
    match e
    case Price(m) => Priced(s, breaker, m)
    case BuyFill(n, answer) =>
      var d := BuyFilled(s, n, answer);
      Outcome(s.(levels := d.levels), breaker, d.raised, d.sent)
    case SellFill(n, fill, quantity) =>
      var sold := SellFilled(s, n, fill, quantity);
      Outcome(if sold.Some? then sold.value else s, breaker, sold.None?, [])
    case Activate(price, answers) => Started(s, breaker, Initial(price), price, answers)
    case Resume(price, answers) => Started(s, breaker, Trade(price, 1), price, answers)
    case Pause(answers) => Closed(s, breaker, true, answers)
    case CloseAll(answers) => Closed(s, breaker, false, answers)
    case Install(b) => Outcome(s, Some(b), false, [])
  }
}
