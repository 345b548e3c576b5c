/** The handlers of GridMachine split where they await the exchange: while one waits for the answer to an
    order, any other may run. */
module GridAwaits {
  import opened Options
  import opened Grid
  import opened CircuitBreaker
  import opened GridMachine
  import opened GridCoupling

  /** A handler at the k-th action of its plan; `pauses` if it pauses the grid once it is through. */
  datatype Call = Call(plan: seq<Action>, k: nat, buys: bool, pauses: bool)

  /** A grid, the handlers that wait for an answer to the action they are at, and all that was sent. */
  datatype World = World(state: State, breaker: Option<Breaker>, calls: seq<Call>, sent: seq<Action>)

  /** A handler begins, its answers still to come; or the exchange answers one that waits. */
  datatype Input = Begin(event: Event) | Answered(call: nat, answer: Option<OrderId>)

  const NOTHING := Call([], 0, false, false)

  function Start(levels: seq<Level>): World { World(State(Initialized, levels, 0, 0.0, None), None, [], []) }

  /** What the loop over a plan passes over without awaiting: blocked buys, and cancellations without an id. */
  predicate Skipped(a: Action, buys: bool) {
    (a.kind == PlaceBuy && !buys) || (Target(a) == Cancelled && a.orderId.None?)
  }

  predicate Waits(c: Call) { c.k < |c.plan| && !Skipped(c.plan[c.k], c.buys) }

  ghost predicate Valid(w: World) { forall c <- w.calls :: Waits(c) }

  /** A handler that goes on: it sends its next order and waits for it, or comes to its end. */
  function Goes(w: World, c: Call): (w': World)
    requires c.k <= |c.plan|
    ensures w'.state.levels == w.state.levels && w'.breaker == w.breaker && (Valid(w) ==> Valid(w'))
    ensures w'.calls == w.calls ||
      (w'.calls == w.calls + [c.(k := Onward(c.plan, c.k, c.buys))] && Onward(c.plan, c.k, c.buys) < |c.plan|)
  {
    var k := Onward(c.plan, c.k, c.buys);
    if k < |c.plan| then w.(calls := w.calls + [c.(k := k)], sent := w.sent + [c.plan[k]])
    else if c.pauses && Paused in GridTransitions(w.state.status) then w.(state := w.state.(status := Paused))
    else w
  }

  /** The next action to be sent, from the k-th on. */
  function Onward(plan: seq<Action>, k: nat, buys: bool): (next: nat)
    requires k <= |plan|
    ensures k <= next <= |plan| && (next < |plan| ==> !Skipped(plan[next], buys))
    ensures forall j | k <= j < next :: Skipped(plan[j], buys)
    decreases |plan| - k
  {
    if k == |plan| || !Skipped(plan[k], buys) then k else Onward(plan, k + 1, buys)
  }

  /** What a handler does before its first await: the new state and breaker, and its way through a plan. */
  datatype Begun = Begun(state: State, breaker: Option<Breaker>, call: Call)

  function Begins(s: State, breaker: Option<Breaker>, e: Event): Begun {
    match e
    case Price(m) => PriceBegins(s, breaker, m)
    case BuyFill(n, _) => BuyFillBegins(s, breaker, n)
    case SellFill(n, fill, quantity) =>
      var sold := SellFilled(s, n, fill, quantity);
      Begun(if sold.Some? then sold.value else s, breaker, NOTHING)
    case Activate(price, _) => StartBegins(s, breaker, Initial(price), price)
    case Resume(price, _) => StartBegins(s, breaker, Trade(price, 1), price)
    case Pause(_) => Begun(s, breaker, Call(Plan(s.levels, CancelAll), 0, true, true))
    case CloseAll(_) => Begun(s, breaker, Call(Plan(s.levels, CancelAll), 0, true, false))
    case Install(b) => Begun(s, Some(b), NOTHING)
  }

  function PriceBegins(s: State, breaker: Option<Breaker>, m: Market): Begun {
    if s.status != Active then Begun(s, breaker, NOTHING)
    else
      var (widen, buys, breaker', _) := Regime(breaker, m);
      var levels := OnTrip(s.levels, breaker, m);
      var plan := Plan(levels, Trade(m.price, widen));
      Begun(s.(levels := levels, price := Some(m.price)), breaker', Call(plan, 0, buys, false))
  }

  function BuyFillBegins(s: State, breaker: Option<Breaker>, n: int): Begun {
    var i := IndexOf(s.levels, n);
    if i == |s.levels| || Filled !in LevelTransitions(s.levels[i].status) then Begun(s, breaker, NOTHING)
    else
      var lv := s.levels[i].(status := Filled, buyId := None);
      var plan := if s.status == Active then [Action(n, PlaceSell, lv.sellPrice, lv.quantity, None)] else [];
      Begun(s.(levels := s.levels[i := lv]), breaker, Call(plan, 0, true, false))
  }

  function StartBegins(s: State, breaker: Option<Breaker>, wish: Wish, price: real): Begun {
    if Active !in GridTransitions(s.status) then Begun(s, breaker, NOTHING)
    else Begun(s.(status := Active, price := Some(price)), breaker, Call(Plan(s.levels, wish), 0, true, false))
  }

  function Next(w: World, i: Input): World
    requires Valid(w)
  {
    match i
    case Begin(e) =>
      var b := Begins(w.state, w.breaker, e);
      Goes(w.(state := b.state, breaker := b.breaker), b.call)
    case Answered(n, answer) => if n < |w.calls| then Resumes(w, n, answer) else w
  }

  /** The handler that waits as the n-th takes its answer: it applies it to the levels as they are now, and
      goes on unless that raised. */
  function Resumes(w: World, n: nat, answer: Option<OrderId>): World
    requires Valid(w) && n < |w.calls|
  {
    var c := w.calls[n];
    assert c in w.calls;
    var d := Do(w.state.levels, c.plan[c.k], answer);
    var rest := w.(state := w.state.(levels := d.levels), calls := w.calls[..n] + w.calls[n + 1..]);
    if d.raised then rest else Goes(rest, c.(k := c.k + 1))
  }

  lemma NextStaysValid(w: World, i: Input)
    requires Valid(w)
    ensures Valid(Next(w, i))
  {
  }

  // ------------------------------------------------------------------ one handler at a time

  /** The latest handler, left alone with its answers until it ends: the k-th action of a plan gets the k-th. */
  function Alone(w: World, before: nat, answers: seq<Option<OrderId>>): World
    requires Valid(w)
    decreases |w.calls|, if w.calls == [] then 0 else |Last(w).plan| - Last(w).k
  {
    if |w.calls| <= before then w
    else
      var w' := Next(w, Answered(|w.calls| - 1, Answer(answers, Last(w).k)));
      NextStaysValid(w, Answered(|w.calls| - 1, Answer(answers, Last(w).k)));
      Alone(w', before, answers)
  }

  function Last(w: World): Call
    requires w.calls != []
  {
    w.calls[|w.calls| - 1]
  }

  /** What carrying out the rest of a plan leaves. */
  function Ended(w: World, c: Call, d: Done): World {
    var paused := !d.raised && c.pauses && Paused in GridTransitions(w.state.status);
    var state := w.state.(levels := d.levels, status := if paused then Paused else w.state.status);
    w.(state := state, sent := w.sent + d.sent)
  }

  /** Passing over actions changes nothing. */
  lemma {:induction false} SkippingExecutesAlike(levels: seq<Level>, c: Call, answers: seq<Option<OrderId>>)
    requires c.k <= |c.plan|
    ensures Execute(levels, c.plan, c.k, c.buys, answers)
         == Execute(levels, c.plan, Onward(c.plan, c.k, c.buys), c.buys, answers)
    decreases |c.plan| - c.k
  {
    if c.k < |c.plan| && Skipped(c.plan[c.k], c.buys) {
      SkippingExecutesAlike(levels, c.(k := c.k + 1), answers);
      var rest := Execute(levels, c.plan, c.k + 1, c.buys, answers);
      assert [] + rest.sent == rest.sent;
    }
  }

  /** The k-th order of a plan, sent and answered. */
  function Took(w: World, c: Call, k: nat, d: Done): (w': World)
    requires k < |c.plan|
    ensures w'.calls == w.calls && (Valid(w) ==> Valid(w'))
  {
    w.(state := w.state.(levels := d.levels), sent := w.sent + [c.plan[k]])
  }

  /** Carrying out an action that is not passed over. */
  lemma {:induction false} SentAtOnce(levels: seq<Level>, c: Call, k: nat, answers: seq<Option<OrderId>>)
    requires k < |c.plan| && !Skipped(c.plan[k], c.buys)
    ensures var d := Do(levels, c.plan[k], Answer(answers, k));
      && d.sent == [c.plan[k]]
      && Execute(levels, c.plan, k, c.buys, answers)
           == if d.raised then d else Joined(d, Execute(d.levels, c.plan, k + 1, c.buys, answers))
  {
  }

  function Joined(d: Done, rest: Done): Done { rest.(sent := d.sent + rest.sent) }

  lemma SentInTurn(w: World, c: Call, k: nat, d: Done, rest: Done)
    requires k < |c.plan| && d.sent == [c.plan[k]]
    ensures d.raised ==> Ended(w, c, d) == Took(w, c, k, d)
    ensures Ended(Took(w, c, k, d), c.(k := k + 1), rest) == Ended(w, c, Joined(d, rest))
  {
  }

  lemma {:induction false} LastTakesItsAnswer(w: World, c: Call, answer: Option<OrderId>)
    requires Valid(w) && c.k <= |c.plan| && Onward(c.plan, c.k, c.buys) < |c.plan|
    ensures Valid(Goes(w, c))
    ensures var k, at := Onward(c.plan, c.k, c.buys), Goes(w, c);
      var d := Do(w.state.levels, c.plan[k], answer);
      Next(at, Answered(|w.calls|, answer))
        == if d.raised then Took(w, c, k, d) else Goes(Took(w, c, k, d), c.(k := k + 1))
  {
    var at := Goes(w, c);
    assert at.calls[..|w.calls|] + at.calls[|w.calls| + 1..] == w.calls;
  }

  /** One turn of the latest handler, from the world `at` to the world `next`. */
  lemma {:induction false} AloneTurns(at: World, next: World, n: nat, answer: Option<OrderId>,
      answers: seq<Option<OrderId>>)
    requires Valid(at) && |at.calls| == n + 1 && answer == Answer(answers, Last(at).k)
    requires next == Next(at, Answered(n, answer))
    ensures Valid(next) && Alone(at, n, answers) == Alone(next, n, answers)
  {
    NextStaysValid(at, Answered(n, answer));
  }

  lemma {:induction false} AloneIsOver(w: World, before: nat, answers: seq<Option<OrderId>>)
    requires Valid(w) && |w.calls| <= before
    ensures Alone(w, before, answers) == w
  {
  }

  lemma {:induction false} LastIsWaiting(w: World, c: Call)
    requires Valid(w) && c.k <= |c.plan| && Onward(c.plan, c.k, c.buys) < |c.plan|
    ensures var at := Goes(w, c);
      Valid(at) && |at.calls| == |w.calls| + 1 && Last(at).k == Onward(c.plan, c.k, c.buys)
  {
  }

  /** The handler sends its next order, and goes on from the answer to it. */
  lemma {:induction false} AloneTakesOne(w: World, c: Call, k: nat, d: Done, answers: seq<Option<OrderId>>)
    requires Valid(w) && c.k <= |c.plan| && k == Onward(c.plan, c.k, c.buys) < |c.plan|
    requires d == Do(w.state.levels, c.plan[k], Answer(answers, k))
    ensures d.raised ==> Alone(Goes(w, c), |w.calls|, answers) == Took(w, c, k, d)
    ensures !d.raised ==>
      Alone(Goes(w, c), |w.calls|, answers) == Alone(Goes(Took(w, c, k, d), c.(k := k + 1)), |w.calls|, answers)
  {
    var at, took := Goes(w, c), Took(w, c, k, d);
    LastIsWaiting(w, c);
    LastTakesItsAnswer(w, c, Answer(answers, k));
    if d.raised {
      AloneTurns(at, took, |w.calls|, Answer(answers, k), answers);
      AloneIsOver(took, |w.calls|, answers);
    } else {
      AloneTurns(at, Goes(took, c.(k := k + 1)), |w.calls|, Answer(answers, k), answers);
    }
  }

  lemma {:induction false} AloneEnds(w: World, c: Call, answers: seq<Option<OrderId>>)
    requires Valid(w) && c.k <= |c.plan| == Onward(c.plan, c.k, c.buys)
    ensures Valid(Goes(w, c))
    ensures Alone(Goes(w, c), |w.calls|, answers) == Ended(w, c, Done(w.state.levels, false, []))
  {
    assert w.sent + [] == w.sent;
    AloneIsOver(Goes(w, c), |w.calls|, answers);
  }

  /** A handler that is left alone carries out its plan as if it never waited. */
  lemma {:induction false} AloneExecutes(w: World, c: Call, answers: seq<Option<OrderId>>)
    requires Valid(w) && c.k <= |c.plan|
    ensures Valid(Goes(w, c))
    ensures Alone(Goes(w, c), |w.calls|, answers)
         == Ended(w, c, Execute(w.state.levels, c.plan, c.k, c.buys, answers))
    decreases |c.plan| - c.k
  {
    var k := Onward(c.plan, c.k, c.buys);
    SkippingExecutesAlike(w.state.levels, c, answers);
    if k == |c.plan| {
      AloneEnds(w, c, answers);
    } else {
      var d := Do(w.state.levels, c.plan[k], Answer(answers, k));
      AloneTakesOne(w, c, k, d, answers);
      SentAtOnce(w.state.levels, c, k, answers);
      var rest := Execute(d.levels, c.plan, k + 1, c.buys, answers);
      SentInTurn(w, c, k, d, rest);
      if !d.raised {
        AloneExecutes(Took(w, c, k, d), c.(k := k + 1), answers);
      }
    }
  }

  function AnswersOf(e: Event): seq<Option<OrderId>> {
    match e
    case Price(m) => m.answers
    case BuyFill(_, answer) => [answer]
    case Activate(_, answers) => answers
    case Resume(_, answers) => answers
    case Pause(answers) => answers
    case CloseAll(answers) => answers
    case _ => []
  }

  /** A handler with nothing else going on does what GridMachine says of it in one step, whatever else may
      be waiting. */
  lemma {:induction false} AloneIsOneStep(w: World, e: Event)
    requires Valid(w)
    ensures Valid(Next(w, Begin(e)))
    ensures var out := Step(w.state, w.breaker, e);
      Alone(Next(w, Begin(e)), |w.calls|, AnswersOf(e)) == World(out.state, out.breaker, w.calls, w.sent + out.sent)
  {
    var b := Begins(w.state, w.breaker, e);
    var begun := w.(state := b.state, breaker := b.breaker);
    NextStaysValid(w, Begin(e));
    AloneExecutes(begun, b.call, AnswersOf(e));
    EndsAsStep(w, e);
  }

  lemma {:induction false} EndsAsStep(w: World, e: Event)
    ensures var b, out := Begins(w.state, w.breaker, e), Step(w.state, w.breaker, e);
      var d := Execute(b.state.levels, b.call.plan, 0, b.call.buys, AnswersOf(e));
      Ended(w.(state := b.state, breaker := b.breaker), b.call, d)
        == World(out.state, out.breaker, w.calls, w.sent + out.sent)
  {
    match e
    case Price(m) =>
      if w.state.status == Active {
        ClearingPlansAlike(w.state.levels, m.works, m.price, Regime(w.breaker, m).0);
      }
    case BuyFill(n, answer) => SoldAtOnce(w.state, w.breaker, n, answer);
    case _ =>
  }

  lemma {:induction false} SoldAtOnce(s: State, breaker: Option<Breaker>, n: int, answer: Option<OrderId>)
    ensures var b, d := BuyFillBegins(s, breaker, n), BuyFilled(s, n, answer);
      var d' := Execute(b.state.levels, b.call.plan, 0, b.call.buys, [answer]);
      d'.levels == d.levels && d'.sent == d.sent && b.state == s.(levels := b.state.levels)
  {
    var b := BuyFillBegins(s, breaker, n);
    if b.call.plan != [] {
      var d := Do(b.state.levels, b.call.plan[0], answer);
      assert Execute(d.levels, b.call.plan, 1, true, [answer]) == Done(d.levels, false, []);
      assert d.sent + [] == d.sent;
    }
  }

  // ------------------------------------------------------------------ coupling at every await

  /** What can be said of an input before it is taken: a fill that is accepted is for a level with no order of
      the other side, and an answer that brings good news comes in time. */
  predicate Harmless(w: World, i: Input)
    requires Valid(w)
  {
    match i
    case Begin(BuyFill(n, _)) =>
      var j := IndexOf(w.state.levels, n);
      j < |w.state.levels| && Filled in LevelTransitions(w.state.levels[j].status) ==> w.state.levels[j].sellId.None?
    case Begin(SellFill(n, _, _)) =>
      var j := IndexOf(w.state.levels, n);
      j < |w.state.levels| && TpHit in LevelTransitions(w.state.levels[j].status) ==> w.state.levels[j].buyId.None?
    case Begin(_) => true
    case Answered(n, answer) =>
      n < |w.calls| && answer.Some? ==>
        assert w.calls[n] in w.calls;
        var a := w.calls[n].plan[w.calls[n].k];
        var j := IndexOf(w.state.levels, a.level);
        j < |w.state.levels| ==> InTime(w.state.levels[j], a)
  }

  /** Whatever else is waiting, an input keeps the levels coupled to their orders exactly if it is harmless. */
  lemma {:induction false} StepKeepsCouplingIff(w: World, i: Input)
    requires Valid(w) && Sound(w.state.levels)
    ensures Sound(Next(w, i).state.levels) <==> Harmless(w, i)
  {
    match i
    case Begin(BuyFill(n, _)) => FillBeginsCoupledIff(w.state, w.breaker, n);
    case Begin(SellFill(n, fill, quantity)) =>
      if SellFilled(w.state, n, fill, quantity).Some? {
        SellFillKeepsCouplingIff(w.state, n, fill, quantity);
      }
    case Begin(Price(m)) => ClearPendingClearsNothing(w.state.levels, m.works);
    case Begin(_) =>
    case Answered(n, answer) =>
      if n < |w.calls| {
        var c := w.calls[n];
        assert c in w.calls;
        if answer.Some? && IndexOf(w.state.levels, c.plan[c.k].level) < |w.state.levels| {
          LateAnswerKeepsCouplingIff(w.state.levels, c.plan[c.k], answer.value);
        }
      }
  }

  lemma {:induction false} FillBeginsCoupledIff(s: State, breaker: Option<Breaker>, n: int)
    requires Sound(s.levels)
    ensures var i := IndexOf(s.levels, n);
      Sound(BuyFillBegins(s, breaker, n).state.levels) <==>
        (i < |s.levels| && Filled in LevelTransitions(s.levels[i].status) ==> s.levels[i].sellId.None?)
  {
    var i, begun := IndexOf(s.levels, n), BuyFillBegins(s, breaker, n).state.levels;
    if i < |s.levels| && Filled in LevelTransitions(s.levels[i].status) {
      assert begun[i] in begun;
      if s.levels[i].sellId.None? {
        ReplacedStaysSound(s.levels, i, begun[i]);
      }
    }
  }

  /** A run from a new grid, with any handlers under way at any time, any fills and any answers. */
  ghost predicate Behaviour(ws: seq<World>, inputs: seq<Input>, levels: seq<Level>) {
    && |ws| == |inputs| + 1 && ws[0] == Start(levels)
    && forall k | 0 <= k < |inputs| :: Valid(ws[k]) && ws[k + 1] == Next(ws[k], inputs[k])
  }

  lemma {:induction false} RunStaysValid(ws: seq<World>, inputs: seq<Input>, levels: seq<Level>, k: nat)
    requires Behaviour(ws, inputs, levels) && k < |ws|
    ensures Valid(ws[k])
  {
    if k > 0 {
      NextStaysValid(ws[k - 1], inputs[k - 1]);
    }
  }

  lemma {:induction false} HarmlessRunStaysCoupled(ws: seq<World>, inputs: seq<Input>, levels: seq<Level>, n: nat)
    requires Behaviour(ws, inputs, levels) && n < |ws| && Sound(levels)
    requires forall k | 0 <= k < n :: Harmless(ws[k], inputs[k])
    ensures Sound(ws[n].state.levels)
  {
    if n > 0 {
      HarmlessRunStaysCoupled(ws, inputs, levels, n - 1);
      StepKeepsCouplingIff(ws[n - 1], inputs[n - 1]);
    }
  }

  /** In every interleaving of handlers, up to any moment: the levels are coupled to their orders throughout
      exactly if every input so far was harmless when it came. */
  lemma {:induction false} RunStaysCoupledIff(ws: seq<World>, inputs: seq<Input>, levels: seq<Level>, n: nat)
    requires Behaviour(ws, inputs, levels) && n < |ws| && Sound(levels)
    ensures (forall k | 0 <= k <= n :: Sound(ws[k].state.levels)) <==>
            forall k | 0 <= k < n :: Harmless(ws[k], inputs[k])
  {
    if forall k | 0 <= k <= n :: Sound(ws[k].state.levels) {
      forall k | 0 <= k < n ensures Harmless(ws[k], inputs[k]) {
        assert Sound(ws[k].state.levels) && Sound(ws[k + 1].state.levels);
        StepKeepsCouplingIff(ws[k], inputs[k]);
      }
    }
    if forall k | 0 <= k < n :: Harmless(ws[k], inputs[k]) {
      forall k | 0 <= k <= n ensures Sound(ws[k].state.levels) {
        HarmlessRunStaysCoupled(ws, inputs, levels, k);
      }
    }
  }

  // ------------------------------------------------------------------ the breaker

  /** The breaker is triggered and stops buying. */
  predicate Stopped(w: World) { w.breaker.Some? && w.breaker.value.triggered && w.breaker.value.mode != WidenStep }

  predicate ByHand(i: Input) { i.Begin? && (i.event.Activate? || i.event.Resume?) }

  ghost predicate SendsBuy(w: World, w': World) { exists a :: w'.sent == w.sent + [a] && a.kind == PlaceBuy }

  predicate BuysNext(c: Call)
    requires c.k <= |c.plan|
  {
    var k := Onward(c.plan, c.k, c.buys);
    k < |c.plan| && c.plan[k].kind == PlaceBuy
  }

  /** The answer lets a waiting handler go on, and its next order is a buy. */
  predicate LetsBuyOut(w: World, i: Input)
    requires Valid(w)
  {
    i.Answered? && i.call < |w.calls| &&
    var c := w.calls[i.call];
    assert c in w.calls;
    !Do(w.state.levels, c.plan[c.k], i.answer).raised && BuysNext(c.(k := c.k + 1))
  }

  lemma {:induction false} GoesSendsBuyIff(w: World, c: Call)
    requires c.k <= |c.plan|
    ensures SendsBuy(w, Goes(w, c)) <==> BuysNext(c)
  {
    var k := Onward(c.plan, c.k, c.buys);
    if k < |c.plan| {
      assert Goes(w, c).sent[|w.sent|] == c.plan[k];
    }
  }

  /** What begins while the breaker stops buying has no buy to send. */
  lemma {:induction false} StoppedBeginsWithoutBuys(s: State, breaker: Option<Breaker>, e: Event)
    requires !e.Activate? && !e.Resume?
    requires var b := Begins(s, breaker, e).breaker; b.Some? && b.value.triggered && b.value.mode != WidenStep
    ensures var c := Begins(s, breaker, e).call; c.k == 0 && (c.buys ==> forall a <- c.plan :: a.kind != PlaceBuy)
  {
    PlanIsWanted(s.levels, CancelAll);
  }

  lemma {:induction false} AnswerSendsBuyIff(w: World, n: nat, answer: Option<OrderId>)
    requires Valid(w)
    ensures SendsBuy(w, Next(w, Answered(n, answer))) <==> LetsBuyOut(w, Answered(n, answer))
  {
    if n < |w.calls| {
      var c := w.calls[n];
      assert c in w.calls;
      var d := Do(w.state.levels, c.plan[c.k], answer);
      var rest := w.(state := w.state.(levels := d.levels), calls := w.calls[..n] + w.calls[n + 1..]);
      GoesSendsBuyIff(rest, c.(k := c.k + 1));
    }
  }

  /** Activating and resuming do not look at the breaker. */
  predicate BuysByHand(w: World, i: Input) { ByHand(i) && BuysNext(Begins(w.state, w.breaker, i.event).call) }

  /** Once the breaker stops buying, a step sends a buy exactly if it is an answer that lets a handler from before
      go on to one, or an activation or resumption with a buy to start with. */
  lemma {:induction false} StoppedSendsBuyIff(w: World, i: Input)
    requires Valid(w) && Stopped(Next(w, i))
    ensures SendsBuy(w, Next(w, i)) <==> LetsBuyOut(w, i) || BuysByHand(w, i)
  {
    match i
    case Begin(e) =>
      var b := Begins(w.state, w.breaker, e);
      if !ByHand(i) {
        StoppedBeginsWithoutBuys(w.state, w.breaker, e);
      }
      GoesSendsBuyIff(w.(state := b.state, breaker := b.breaker), b.call);
    case Answered(n, answer) => AnswerSendsBuyIff(w, n, answer);
  }

  /** The handler has no buy to send after the order it waits for. */
  predicate DoneBuying(c: Call) { c.buys ==> forall j | c.k < j < |c.plan| :: c.plan[j].kind != PlaceBuy }

  ghost predicate AllDoneBuying(w: World) { forall c <- w.calls :: DoneBuying(c) }

  /** If no handler had a buy ahead of it when the breaker stopped buying, none is sent for as long as it
      does, whatever waits, begins and is answered. */
  lemma {:induction false} StoppedStaysWithoutBuys(w: World, i: Input)
    requires Valid(w) && Stopped(Next(w, i)) && !ByHand(i) && AllDoneBuying(w)
    ensures AllDoneBuying(Next(w, i)) && !SendsBuy(w, Next(w, i))
  {
    StoppedSendsBuyIff(w, i);
    match i
    case Begin(e) =>
      StoppedBeginsWithoutBuys(w.state, w.breaker, e);
    case Answered(n, answer) =>
      if n < |w.calls| {
        assert w.calls[n] in w.calls;
      }
  }

  lemma {:induction false} NoBuysWhileStopped(ws: seq<World>, inputs: seq<Input>, levels: seq<Level>, from: nat,
      to: nat)
    requires Behaviour(ws, inputs, levels) && from <= to < |ws| && AllDoneBuying(ws[from])
    requires (forall k | from < k <= to :: Stopped(ws[k])) && forall k | from <= k < to :: !ByHand(inputs[k])
    ensures AllDoneBuying(ws[to]) && forall k | from <= k < to :: !SendsBuy(ws[k], ws[k + 1])
  {
    if from < to {
      NoBuysWhileStopped(ws, inputs, levels, from, to - 1);
      assert ws[to - 1 + 1] == Next(ws[to - 1], inputs[to - 1]) && Stopped(ws[to]);
      StoppedStaysWithoutBuys(ws[to - 1], inputs[to - 1]);
    }
  }
}
