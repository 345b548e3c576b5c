/** The planner and the level state machine agree, and every level's status says which orders it has. */
module GridCoupling {
  import opened Options
  import opened Grid
  import opened CircuitBreaker
  import opened GridMachine

  /** An OPEN level has exactly one outstanding order; any other level has none. */
  ghost predicate Coupled(lv: Level) {
    if lv.status == Open then lv.buyId.Some? <==> lv.sellId.None? else lv.buyId.None? && lv.sellId.None?
  }

  ghost predicate Unique(levels: seq<Level>) {
    forall i, j | 0 <= i < j < |levels| :: levels[i].number != levels[j].number
  }

  ghost predicate Sound(levels: seq<Level>) { Unique(levels) && forall lv <- levels :: Coupled(lv) }

  /** Same levels, apart from status and order ids. */
  ghost predicate SameLevel(lv: Level, lv': Level) {
    lv' == lv.(status := lv'.status, buyId := lv'.buyId, sellId := lv'.sellId)
  }

  ghost predicate SameShape(levels: seq<Level>, levels': seq<Level>) {
    |levels'| == |levels| && forall i | 0 <= i < |levels| :: SameLevel(levels[i], levels'[i])
  }

  /** Whether a level waits to buy, holds what it bought, or has been cancelled. */
  datatype Stance = Free | Holding | Gone

  ghost function StanceOf(lv: Level): Stance {
    if lv.status == Cancelled then Gone
    else if lv.status == Filled || (lv.status == Open && lv.sellId.Some?) then Holding else Free
  }

  /** Without a fill a level keeps its stance or is cancelled, and a cancelled level is never touched again. */
  ghost predicate Stays(lv: Level, lv': Level) {
    && (StanceOf(lv') == StanceOf(lv) || StanceOf(lv') == Gone) && (lv.status == Cancelled ==> lv' == lv)
  }

  ghost predicate AllStay(levels: seq<Level>, levels': seq<Level>) {
    |levels'| == |levels| && forall i | 0 <= i < |levels| :: Stays(levels[i], levels'[i])
  }

  lemma {:induction false} IndexIsUnique(levels: seq<Level>, i: nat)
    requires Unique(levels) && i < |levels|
    ensures IndexOf(levels, levels[i].number) == i
  {
  }

  /** What an action presupposes of its level. */
  ghost predicate Suits(lv: Level, a: Action) {
    && lv.number == a.level
    && match a.kind
       case PlaceBuy => lv.status in {Waiting, TpHit}
       case PlaceSell => lv.status == Filled
       case CancelBuy => lv.status == Open && lv.buyId.Some? && lv.buyId == a.orderId
       case CancelSell => lv.status == Open && lv.buyId.None? && lv.sellId.Some? && lv.sellId == a.orderId
  }

  ghost predicate Fits(levels: seq<Level>, a: Action) {
    var i := IndexOf(levels, a.level);
    i < |levels| && Suits(levels[i], a)
  }

  ghost predicate AllFit(levels: seq<Level>, plan: seq<Action>, k: nat) {
    && (forall j | k <= j < |plan| :: Fits(levels, plan[j]))
    && Distinct(plan, k)
  }

  /** From the k-th action on, no level is planned twice. */
  ghost predicate Distinct(plan: seq<Action>, k: nat) {
    forall i, j | k <= i < j < |plan| :: plan[i].level != plan[j].level
  }

  /** From the k-th action on, some action that may be carried out is for level `n`. */
  ghost predicate Mentions(plan: seq<Action>, k: nat, buys: bool, n: int) {
    exists j :: k <= j < |plan| && plan[j].level == n && (plan[j].kind == PlaceBuy ==> buys)
  }

  /** Exactly the wanted actions are planned, each for its own level. */
  lemma {:induction false} PlanIsWanted(levels: seq<Level>, wish: Wish)
    ensures forall a :: a in Plan(levels, wish) <==> exists lv :: lv in levels && Wanted(lv, wish) == Some(a)
  {
    if levels != [] {
      var init, last := levels[..|levels|-1], levels[|levels|-1];
      PlanIsWanted(init, wish);
      assert levels == init + [last];
    }
  }

  lemma {:induction false} PlanFits(levels: seq<Level>, wish: Wish)
    requires Sound(levels)
    ensures AllFit(levels, Plan(levels, wish), 0)
  {
    PlanIsWanted(levels, wish);
    PlanIsDistinct(levels, wish);
    var plan := Plan(levels, wish);
    forall j | 0 <= j < |plan| ensures Fits(levels, plan[j]) {
      assert plan[j] in plan;
      var lv :| lv in levels && Wanted(lv, wish) == Some(plan[j]);
      var i :| 0 <= i < |levels| && levels[i] == lv;
      IndexIsUnique(levels, i);
    }
  }

  lemma {:induction false} UnplannedLevel(levels: seq<Level>, wish: Wish, n: int)
    requires forall lv <- levels :: lv.number != n
    ensures forall a <- Plan(levels, wish) :: a.level != n
  {
    PlanIsWanted(levels, wish);
    forall a <- Plan(levels, wish) ensures a.level != n {
      var lv :| lv in levels && Wanted(lv, wish) == Some(a);
    }
  }

  lemma {:induction false} DistinctExtends(before: seq<Action>, a: Action)
    requires Distinct(before, 0) && forall b <- before :: b.level != a.level
    ensures Distinct(before + [a], 0)
  {
    forall i, j | 0 <= i < j < |before + [a]| ensures (before + [a])[i].level != (before + [a])[j].level {
      assert (before + [a])[i] == before[i] && before[i] in before;
    }
  }

  lemma {:induction false} PlanIsDistinct(levels: seq<Level>, wish: Wish)
    requires Unique(levels)
    ensures Distinct(Plan(levels, wish), 0)
  {
    if levels != [] {
      var init, last := levels[..|levels|-1], levels[|levels|-1];
      PlanIsDistinct(init, wish);
      UnplannedLevel(init, wish, last.number);
      if Wanted(last, wish).Some? {
        DistinctExtends(Plan(init, wish), Wanted(last, wish).value);
      }
    }
  }

  lemma {:induction false} IndexSurvives(levels: seq<Level>, i: nat, lv: Level, n: int)
    requires i < |levels| && lv.number == levels[i].number
    ensures IndexOf(levels[i := lv], n) == IndexOf(levels, n)
  {
    if i > 0 && levels[0].number != n {
      assert levels[i := lv][1..] == levels[1..][i - 1 := lv];
      IndexSurvives(levels[1..], i - 1, lv, n);
    } else {
      assert levels[i := lv][1..] == if i == 0 then levels[1..] else levels[1..][i - 1 := lv];
    }
  }

  /** One fitting action: the state machine accepts it, so only the exchange can make it fail. */
  lemma {:induction false} DoAccepted(levels: seq<Level>, a: Action, answer: Option<OrderId>)
    requires Sound(levels) && Fits(levels, a)
    ensures var d, i := Do(levels, a, answer), IndexOf(levels, a.level);
      && (d.raised <==> answer.None?) && d.sent == [a]
      && Sound(d.levels) && SameShape(levels, d.levels) && AllStay(levels, d.levels)
      && (if d.raised then d.levels == levels
          else d.levels == levels[i := d.levels[i]] && d.levels[i].status == Target(a))
  {
    var i := IndexOf(levels, a.level);
    assert levels[i] in levels;
    var d := Do(levels, a, answer);
    if answer.Some? {
      assert Coupled(d.levels[i]);
      forall lv <- d.levels ensures Coupled(lv) {
        if lv != d.levels[i] {
          assert lv in levels;
        }
      }
    }
  }

  /** The levels a plan leaves alone, and those it settles. */
  ghost predicate Settled(levels: seq<Level>, levels': seq<Level>, plan: seq<Action>, k: nat, buys: bool)
    requires |levels'| == |levels|
  {
    forall i | 0 <= i < |levels| ::
      if Mentions(plan, k, buys, levels[i].number)
      then levels'[i].status in {Open, Cancelled} else levels'[i] == levels[i]
  }

  /** The rest of a plan still fits once its first action is done. */
  lemma {:induction false} TailFits(levels: seq<Level>, plan: seq<Action>, k: nat, answer: Option<OrderId>)
    requires Sound(levels) && k < |plan| && AllFit(levels, plan, k) && answer.Some?
    ensures AllFit(Do(levels, plan[k], answer).levels, plan, k + 1)
    ensures forall n :: IndexOf(Do(levels, plan[k], answer).levels, n) == IndexOf(levels, n)
  {
    var d, i := Do(levels, plan[k], answer), IndexOf(levels, plan[k].level);
    DoAccepted(levels, plan[k], answer);
    forall n ensures IndexOf(d.levels, n) == IndexOf(levels, n) {
      IndexSurvives(levels, i, d.levels[i], n);
    }
  }

  lemma StayIsTransitive(a: seq<Level>, b: seq<Level>, c: seq<Level>)
    requires SameShape(a, b) && AllStay(a, b) && SameShape(b, c) && AllStay(b, c)
    ensures SameShape(a, c) && AllStay(a, c)
  {
    forall i | 0 <= i < |a| ensures SameLevel(a[i], c[i]) && Stays(a[i], c[i]) {
      assert SameLevel(a[i], b[i]) && SameLevel(b[i], c[i]) && Stays(a[i], b[i]) && Stays(b[i], c[i]);
    }
  }

  lemma {:induction false} SentFromPlan(
    levels: seq<Level>, plan: seq<Action>, k: nat, buys: bool, answers: seq<Option<OrderId>>)
    requires k <= |plan|
    ensures forall a <- Execute(levels, plan, k, buys, answers).sent :: a in plan && (a.kind == PlaceBuy ==> buys)
    decreases |plan| - k
  {
    if k < |plan| {
      if plan[k].kind == PlaceBuy && !buys {
        SentFromPlan(levels, plan, k + 1, buys, answers);
      } else {
        var d := Do(levels, plan[k], Answer(answers, k));
        if !d.raised {
          SentFromPlan(d.levels, plan, k + 1, buys, answers);
        }
      }
    }
  }

  lemma {:induction false} ExecuteKeeps(
    levels: seq<Level>, plan: seq<Action>, k: nat, buys: bool, answers: seq<Option<OrderId>>)
    requires Sound(levels) && k <= |plan| && AllFit(levels, plan, k)
    ensures var d := Execute(levels, plan, k, buys, answers);
      Sound(d.levels) && SameShape(levels, d.levels) && AllStay(levels, d.levels)
    decreases |plan| - k
  {
    if k < |plan| {
      if plan[k].kind == PlaceBuy && !buys {
        ExecuteKeeps(levels, plan, k + 1, buys, answers);
      } else {
        var d := Do(levels, plan[k], Answer(answers, k));
        DoAccepted(levels, plan[k], Answer(answers, k));
        if !d.raised {
          TailFits(levels, plan, k, Answer(answers, k));
          ExecuteKeeps(d.levels, plan, k + 1, buys, answers);
          StayIsTransitive(levels, d.levels, Execute(d.levels, plan, k + 1, buys, answers).levels);
        }
      }
    }
  }

  /** Only the exchange can cut a fitting plan short. */
  lemma {:induction false} ExecuteRaises(levels: seq<Level>, plan: seq<Action>, k: nat, buys: bool,
      answers: seq<Option<OrderId>>)
    requires Sound(levels) && k <= |plan| && AllFit(levels, plan, k)
    ensures Execute(levels, plan, k, buys, answers).raised <==>
      exists j :: k <= j < |plan| && (plan[j].kind == PlaceBuy ==> buys) && Answer(answers, j).None?
    decreases |plan| - k
  {
    if k < |plan| {
      if plan[k].kind == PlaceBuy && !buys {
        ExecuteRaises(levels, plan, k + 1, buys, answers);
      } else {
        DoAccepted(levels, plan[k], Answer(answers, k));
        if Answer(answers, k).Some? {
          TailFits(levels, plan, k, Answer(answers, k));
          ExecuteRaises(Do(levels, plan[k], Answer(answers, k)).levels, plan, k + 1, buys, answers);
        }
      }
    }
  }

  lemma {:induction false} ExecuteSettles(levels: seq<Level>, plan: seq<Action>, k: nat, buys: bool,
      answers: seq<Option<OrderId>>)
    requires Sound(levels) && k <= |plan| && AllFit(levels, plan, k) && !Execute(levels, plan, k, buys, answers).raised
    ensures |Execute(levels, plan, k, buys, answers).levels| == |levels|
    ensures Settled(levels, Execute(levels, plan, k, buys, answers).levels, plan, k, buys)
    decreases |plan| - k
  {
    if k < |plan| {
      if plan[k].kind == PlaceBuy && !buys {
        ExecuteSettles(levels, plan, k + 1, buys, answers);
        forall n ensures Mentions(plan, k, buys, n) <==> Mentions(plan, k + 1, buys, n) {
        }
      } else {
        var a, d, i := plan[k], Do(levels, plan[k], Answer(answers, k)), IndexOf(levels, plan[k].level);
        DoAccepted(levels, a, Answer(answers, k));
        TailFits(levels, plan, k, Answer(answers, k));
        ExecuteSettles(d.levels, plan, k + 1, buys, answers);
        forall n ensures Mentions(plan, k, buys, n) <==> n == a.level || Mentions(plan, k + 1, buys, n) {
        }
        assert !Mentions(plan, k + 1, buys, a.level);
      }
    }
  }

  /** An action that is carried out leaves its level where it was headed: OPEN if placed, CANCELLED if cancelled. */
  lemma {:induction false} ReachesTarget(
    levels: seq<Level>, plan: seq<Action>, k: nat, buys: bool, answers: seq<Option<OrderId>>, j: nat)
    requires Sound(levels) && k <= j < |plan| && AllFit(levels, plan, k) && (plan[j].kind == PlaceBuy ==> buys)
    requires !Execute(levels, plan, k, buys, answers).raised
    ensures var i, levels' := IndexOf(levels, plan[j].level), Execute(levels, plan, k, buys, answers).levels;
      i < |levels| == |levels'| && levels'[i].status == Target(plan[j])
    decreases |plan| - k
  {
    if plan[k].kind == PlaceBuy && !buys {
      ReachesTarget(levels, plan, k + 1, buys, answers, j);
    } else {
      var d, i := Do(levels, plan[k], Answer(answers, k)), IndexOf(levels, plan[k].level);
      assert Fits(levels, plan[k]);
      DoAccepted(levels, plan[k], Answer(answers, k));
      TailFits(levels, plan, k, Answer(answers, k));
      if k < j {
        ReachesTarget(d.levels, plan, k + 1, buys, answers, j);
      } else {
        ExecuteSettles(d.levels, plan, k + 1, buys, answers);
        assert !Mentions(plan, k + 1, buys, plan[k].level);
        assert d.levels[i].number == plan[k].level;
      }
    }
  }

  /** What is wanted of a level that a plan has settled: nothing more. */
  lemma SettledWantsNothing(lv: Level, lv': Level, wish: Wish)
    requires if Wanted(lv, wish).Some? then lv'.status in {Open, Cancelled} else lv' == lv
    requires Coupled(lv') && (wish.CancelAll? && Wanted(lv, wish).Some? ==> lv'.status == Cancelled)
    ensures Wanted(lv', wish).None?
  {
  }

  /** Every planned action is accepted by the level state machine, so a plan is cut short only by the
      exchange; and a plan that was carried out leaves nothing to plan at the same price. */
  lemma {:induction false} PlanIsAcceptedAndComplete(levels: seq<Level>, wish: Wish, answers: seq<Option<OrderId>>)
    requires Sound(levels)
    ensures var plan := Plan(levels, wish); var d := Execute(levels, plan, 0, true, answers);
      && (d.raised <==> exists j :: 0 <= j < |plan| && Answer(answers, j).None?)
      && Sound(d.levels) && SameShape(levels, d.levels)
      && (!d.raised ==> Plan(d.levels, wish) == [])
  {
    var plan := Plan(levels, wish);
    var d := Execute(levels, plan, 0, true, answers);
    PlanFits(levels, wish);
    ExecuteKeeps(levels, plan, 0, true, answers);
    ExecuteRaises(levels, plan, 0, true, answers);
    if !d.raised {
      ExecuteSettles(levels, plan, 0, true, answers);
      forall i | 0 <= i < |levels| && wish.CancelAll? && Wanted(levels[i], wish).Some?
        ensures d.levels[i].status == Cancelled
      {
        CancelledByPlan(levels, answers, i);
      }
      SettledLeavesNothing(levels, d.levels, wish);
    }
  }

  lemma {:induction false} CancelPlanCancels(levels: seq<Level>, a: Action)
    requires a in Plan(levels, CancelAll)
    ensures Target(a) == Cancelled
  {
    PlanIsWanted(levels, CancelAll);
  }

  /** A level that the cancel plan names ends up cancelled. */
  lemma {:induction false} CancelledByPlan(levels: seq<Level>, answers: seq<Option<OrderId>>, i: nat)
    requires Sound(levels) && i < |levels| && Wanted(levels[i], CancelAll).Some?
    requires !Execute(levels, Plan(levels, CancelAll), 0, true, answers).raised
    ensures var d := Execute(levels, Plan(levels, CancelAll), 0, true, answers);
      |d.levels| == |levels| && d.levels[i].status == Cancelled
  {
    var plan := Plan(levels, CancelAll);
    PlanFits(levels, CancelAll);
    PlannedIffWanted(levels, CancelAll, i);
    var j :| 0 <= j < |plan| && plan[j].level == levels[i].number;
    assert Target(plan[j]) == Cancelled by {
      CancelPlanCancels(levels, plan[j]);
    }
    IndexIsUnique(levels, i);
    ReachesTarget(levels, plan, 0, true, answers, j);
  }

  lemma {:induction false} SettledLeavesNothing(levels: seq<Level>, levels': seq<Level>, wish: Wish)
    requires Sound(levels) && Sound(levels') && |levels'| == |levels|
    requires forall i | 0 <= i < |levels| ::
      wish.CancelAll? && Wanted(levels[i], wish).Some? ==> levels'[i].status == Cancelled
    requires Settled(levels, levels', Plan(levels, wish), 0, true)
    ensures Plan(levels', wish) == []
  {
    assert Plan(levels', wish) != [] ==> Plan(levels', wish)[0] in Plan(levels', wish);
    forall i | 0 <= i < |levels| ensures Wanted(levels'[i], wish).None? {
      assert levels'[i] in levels' && levels[i] in levels;
      PlannedIffWanted(levels, wish, i);
      SettledWantsNothing(levels[i], levels'[i], wish);
    }
    PlanIsWanted(levels', wish);
  }

  lemma {:induction false} PlannedIffWanted(levels: seq<Level>, wish: Wish, i: nat)
    requires Sound(levels) && i < |levels|
    ensures Mentions(Plan(levels, wish), 0, true, levels[i].number) <==> Wanted(levels[i], wish).Some?
  {
    var plan := Plan(levels, wish);
    PlanIsWanted(levels, wish);
    if j :| 0 <= j < |plan| && plan[j].level == levels[i].number {
      assert plan[j] in plan;
      var lv :| lv in levels && Wanted(lv, wish) == Some(plan[j]);
      var k :| 0 <= k < |levels| && levels[k] == lv;
      assert k == i;
    }
    if Wanted(levels[i], wish).Some? {
      var a := Wanted(levels[i], wish).value;
      assert levels[i] in levels;
      var j :| 0 <= j < |plan| && plan[j] == a;
      assert plan[j].level == levels[i].number;
    }
  }

  /** The sells of a plan, or of what was sent of it, in order. */
  function SellsOf(plan: seq<Action>): seq<Action> {
    if plan == [] then [] else SellOf(plan[0]) + SellsOf(plan[1..])
  }

  function SellOf(a: Action): seq<Action> { if a.kind == PlaceSell then [a] else [] }

  lemma {:induction false} SellsOfConcat(p: seq<Action>, q: seq<Action>)
    ensures SellsOf(p + q) == SellsOf(p) + SellsOf(q)
  {
    if p == [] {
      assert p + q == q && SellsOf(p) == [];
    } else {
      var first, rest := SellOf(p[0]), SellsOf(p[1..]);
      SellsOfConcat(p[1..], q);
      SellsOfMore(p[0], p[1..] + q, p + q);
      SellsOfMore(p[0], p[1..], p);
      assert first + (rest + SellsOf(q)) == (first + rest) + SellsOf(q);
    }
  }

  lemma {:induction false} SellsOfMore(a: Action, rest: seq<Action>, plan: seq<Action>)
    requires plan == [a] + rest
    ensures SellsOf(plan) == SellOf(a) + SellsOf(rest)
  {
    assert plan[1..] == rest;
  }

  /** Whatever state the levels are in, the sells planned with a widened step are, one by one and in order,
      those planned with no breaker at all. */
  lemma {:induction false} WideningKeepsSells(levels: seq<Level>, price: real, widen: nat)
    ensures SellsOf(Plan(levels, Trade(price, widen))) == SellsOf(Plan(levels, Trade(price, 1)))
  {
    if levels != [] {
      var init, last := levels[..|levels|-1], levels[|levels|-1];
      WideningKeepsSells(init, price, widen);
      SellsOfWanted(init, last, Trade(price, widen));
      SellsOfWanted(init, last, Trade(price, 1));
    }
  }

  lemma {:induction false} SellsOfWanted(init: seq<Level>, last: Level, wish: Wish)
    ensures var a := Wanted(last, wish);
      SellsOf(Plan(init + [last], wish))
        == SellsOf(Plan(init, wish)) + if a.Some? && a.value.kind == PlaceSell then [a.value] else []
  {
    var a := Wanted(last, wish);
    assert (init + [last])[..|init|] == init;
    SellsOfConcat(Plan(init, wish), if a.Some? then [a.value] else []);
  }

  /** Buys under a widened step are those of the normal plan at the levels its multiplier divides. */
  lemma {:induction false} WideningOnlySkipsBuys(levels: seq<Level>, price: real, widen: nat, a: Action)
    ensures a.kind != PlaceBuy ==> (a in Plan(levels, Trade(price, widen)) <==> a in Plan(levels, Trade(price, 1)))
    ensures a.kind == PlaceBuy && widen > 1 ==>
      (a in Plan(levels, Trade(price, widen)) <==> a in Plan(levels, Trade(price, 1)) && a.level % widen == 0)
  {
    PlanIsWanted(levels, Trade(price, widen));
    PlanIsWanted(levels, Trade(price, 1));
    forall lv | lv in levels
      ensures Wanted(lv, Trade(price, widen)) == Some(a) <==>
              Wanted(lv, Trade(price, 1)) == Some(a) && (a.kind == PlaceBuy && widen > 1 ==> a.level % widen == 0)
    {
    }
  }

  // ------------------------------------------------------------------ what every event keeps

  /** The code clears the buys of WAITING levels, but outstanding buys are those of OPEN levels: tripping
      the breaker cancels nothing. */
  lemma ClearPendingClearsNothing(levels: seq<Level>, works: set<int>)
    requires Sound(levels)
    ensures ClearPending(levels, works) == levels
  {
    forall i | 0 <= i < |levels| ensures ClearPending(levels, works)[i] == levels[i] {
      assert levels[i] in levels;
    }
  }

  /** The fills that are reported: each for the order its level has outstanding. */
  ghost predicate Reported(s: State, e: Event) {
    match e
    case BuyFill(n, _) =>
      var i := IndexOf(s.levels, n);
      i < |s.levels| && s.levels[i].status == Open && s.levels[i].buyId.Some?
    case SellFill(n, _, _) =>
      var i := IndexOf(s.levels, n);
      i < |s.levels| && s.levels[i].status == Open && s.levels[i].sellId.Some?
    case _ => true
  }

  lemma ReplacedStaysSound(levels: seq<Level>, i: nat, lv: Level)
    requires Sound(levels) && i < |levels| && Coupled(lv) && SameLevel(levels[i], lv)
    ensures Sound(levels[i := lv]) && SameShape(levels, levels[i := lv])
  {
    forall l <- levels[i := lv] ensures Coupled(l) {
      if l != lv {
        assert l in levels;
      }
    }
  }

  lemma {:induction false} BuyFillStaysSound(s: State, n: int, answer: Option<OrderId>)
    requires Sound(s.levels) && Reported(s, BuyFill(n, answer))
    ensures Sound(BuyFilled(s, n, answer).levels) && SameShape(s.levels, BuyFilled(s, n, answer).levels)
    ensures BuyFilled(s, n, answer).raised <==> s.status == Active && answer.None?
    ensures var i, d := IndexOf(s.levels, n), BuyFilled(s, n, answer);
      && d.levels == s.levels[i := d.levels[i]]
      && (if s.status == Active && answer.Some? then d.levels[i].status == Open && d.levels[i].sellId == answer
          else d.levels[i].status == Filled)
  {
    var i := IndexOf(s.levels, n);
    assert s.levels[i] in s.levels;
    var lv := s.levels[i].(status := Filled, buyId := None);
    ReplacedStaysSound(s.levels, i, lv);
    if s.status == Active {
      IndexSurvives(s.levels, i, lv, n);
      DoAccepted(s.levels[i := lv], Action(n, PlaceSell, lv.sellPrice, lv.quantity, None), answer);
    }
  }

  /** Carrying out a plan keeps the levels sound, and only cancels or places. */
  lemma {:induction false} PlanStaysSound(levels: seq<Level>, wish: Wish, buys: bool, answers: seq<Option<OrderId>>)
    requires Sound(levels)
    ensures var levels' := Execute(levels, Plan(levels, wish), 0, buys, answers).levels;
      Sound(levels') && SameShape(levels, levels') && AllStay(levels, levels')
  {
    PlanFits(levels, wish);
    ExecuteKeeps(levels, Plan(levels, wish), 0, buys, answers);
  }

  lemma SellFillStaysSound(s: State, n: int, fill: real, quantity: real)
    requires Sound(s.levels) && Reported(s, SellFill(n, fill, quantity))
    ensures var sold := SellFilled(s, n, fill, quantity);
      sold.Some? && Sound(sold.value.levels) && SameShape(s.levels, sold.value.levels)
  {
    var i := IndexOf(s.levels, n);
    assert s.levels[i] in s.levels;
    ReplacedStaysSound(s.levels, i, SellFilled(s, n, fill, quantity).value.levels[i]);
  }

  lemma PriceStaysSound(s: State, breaker: Option<Breaker>, m: Market)
    requires Sound(s.levels)
    ensures var levels' := Priced(s, breaker, m).state.levels;
      Sound(levels') && SameShape(s.levels, levels') && AllStay(s.levels, levels')
  {
    if s.status == Active {
      var (widen, buys, _, _) := Regime(breaker, m);
      PricedCarriesOut(s, breaker, m);
      PlanStaysSound(s.levels, Trade(m.price, widen), buys, m.answers);
    }
  }

  lemma {:induction false} StartedStaysSound(
    s: State, breaker: Option<Breaker>, wish: Wish, price: real, answers: seq<Option<OrderId>>)
    requires Sound(s.levels)
    ensures var levels' := Started(s, breaker, wish, price, answers).state.levels;
      Sound(levels') && SameShape(s.levels, levels') && AllStay(s.levels, levels')
  {
    PlanStaysSound(s.levels, wish, true, answers);
  }

  lemma {:induction false} ClosedStaysSound(s: State, breaker: Option<Breaker>, pause: bool,
      answers: seq<Option<OrderId>>)
    requires Sound(s.levels)
    ensures var levels' := Closed(s, breaker, pause, answers).state.levels;
      Sound(levels') && SameShape(s.levels, levels') && AllStay(s.levels, levels')
  {
    PlanStaysSound(s.levels, CancelAll, true, answers);
  }

  /** Every event keeps every level coupled to its orders, when fills are reported for the order a level
      has outstanding; and only a fill changes what a level holds. */
  lemma StepStaysSound(s: State, breaker: Option<Breaker>, e: Event)
    requires Sound(s.levels) && Reported(s, e)
    ensures Sound(Step(s, breaker, e).state.levels) && SameShape(s.levels, Step(s, breaker, e).state.levels)
    ensures !e.BuyFill? && !e.SellFill? ==> AllStay(s.levels, Step(s, breaker, e).state.levels)
  {
    match e
    case Price(m) => PriceStaysSound(s, breaker, m);
    case BuyFill(n, answer) => BuyFillStaysSound(s, n, answer);
    case SellFill(n, fill, quantity) => SellFillStaysSound(s, n, fill, quantity);
    case Activate(price, answers) => StartedStaysSound(s, breaker, Initial(price), price, answers);
    case Resume(price, answers) => StartedStaysSound(s, breaker, Trade(price, 1), price, answers);
    case Pause(answers) => ClosedStaysSound(s, breaker, true, answers);
    case CloseAll(answers) => ClosedStaysSound(s, breaker, false, answers);
    case Install(_) =>
  }

  /** A buy fill reported for a level that has a sell outstanding: the coupling survives exactly when the
      grid is active and the new sell is placed, which then replaces the old order's id. */
  lemma {:induction false} MisreportedBuyKeepsCouplingIff(s: State, n: int, answer: Option<OrderId>)
    requires Sound(s.levels)
    requires var i := IndexOf(s.levels, n); i < |s.levels| && s.levels[i].status == Open && s.levels[i].sellId.Some?
    ensures Sound(BuyFilled(s, n, answer).levels) <==> s.status == Active && answer.Some?
  {
    var i, d := IndexOf(s.levels, n), BuyFilled(s, n, answer);
    assert s.levels[i] in s.levels;
    var lv := s.levels[i].(status := Filled, buyId := None);
    assert lv.sellId.Some?;
    IndexSurvives(s.levels, i, lv, n);
    assert d.levels[i] in d.levels;
    if s.status == Active && answer.Some? {
      assert d.levels == s.levels[i := lv.(status := Open, sellId := answer)];
      ReplacedStaysSound(s.levels, i, d.levels[i]);
    }
  }

  /** A sell fill that the engine accepts keeps the coupling exactly when its level has no buy outstanding.
      Reported for a level that is still buying, it leaves the buy's id on a level that is no longer OPEN. */
  lemma {:induction false} SellFillKeepsCouplingIff(s: State, n: int, fill: real, quantity: real)
    requires Sound(s.levels) && SellFilled(s, n, fill, quantity).Some?
    ensures var i := IndexOf(s.levels, n);
      i < |s.levels| && (Sound(SellFilled(s, n, fill, quantity).value.levels) <==> s.levels[i].buyId.None?)
  {
    var i, sold := IndexOf(s.levels, n), SellFilled(s, n, fill, quantity).value;
    assert s.levels[i] in s.levels && sold.levels[i] in sold.levels;
    if s.levels[i].buyId.None? {
      ReplacedStaysSound(s.levels, i, sold.levels[i]);
    }
  }

  /** An answer that comes in time: the level it is about has no order of the other side and, for a
      placement, has not been cancelled. */
  predicate InTime(lv: Level, a: Action) {
    && (if a.kind in {PlaceBuy, CancelBuy} then lv.sellId.None? else lv.buyId.None?)
    && (Target(a) == Open ==> lv.status != Cancelled)
  }

  /** Handlers await the exchange with every order they send, so an answer may find its level changed. It
      keeps the coupling exactly when it comes in time. */
  lemma {:induction false} LateAnswerKeepsCouplingIff(levels: seq<Level>, a: Action, id: OrderId)
    requires Sound(levels) && IndexOf(levels, a.level) < |levels| && (Target(a) == Cancelled ==> a.orderId.Some?)
    ensures var lv := levels[IndexOf(levels, a.level)];
      Sound(Do(levels, a, Some(id)).levels) <==> InTime(lv, a)
  {
    var i, d := IndexOf(levels, a.level), Do(levels, a, Some(id));
    assert levels[i] in levels && d.levels[i] in d.levels;
    if Coupled(d.levels[i]) {
      ReplacedStaysSound(levels, i, d.levels[i]);
    }
  }

  /** Two updates that wait on the same level both send its buy. The second answer takes the place of the
      first id before its transition is rejected, so the first order stays on the exchange unnamed. */
  lemma {:induction false} SecondAnswerForgetsFirst(levels: seq<Level>, a: Action, first: OrderId, second: OrderId)
    requires Sound(levels) && Fits(levels, a) && a.kind == PlaceBuy && first != second
    ensures var i, once := IndexOf(levels, a.level), Do(levels, a, Some(first));
      var twice := Do(once.levels, a, Some(second));
      && !once.raised && once.levels[i].buyId == Some(first) && once.levels[i].status == Open
      && twice.raised && twice.levels == once.levels[i := once.levels[i].(buyId := Some(second))] && Sound(twice.levels)
  {
    var i, once := IndexOf(levels, a.level), Do(levels, a, Some(first));
    DoAccepted(levels, a, Some(first));
    IndexSurvives(levels, i, once.levels[i], a.level);
    LateAnswerKeepsCouplingIff(once.levels, a, second);
    assert once.levels[i] in once.levels;
  }

  // ------------------------------------------------------------------ the breaker at the gate

  /** The levels a price update plans on. */
  function OnTrip(levels: seq<Level>, breaker: Option<Breaker>, m: Market): seq<Level> {
    if Regime(breaker, m).3 then ClearPending(levels, m.works) else levels
  }

  /** The ids that a trip clears play no part in a plan. */
  lemma {:induction false} ClearingPlansAlike(levels: seq<Level>, works: set<int>, price: real, widen: nat)
    ensures Plan(ClearPending(levels, works), Trade(price, widen)) == Plan(levels, Trade(price, widen))
  {
    if levels != [] {
      var init, cleared := levels[..|levels|-1], ClearPending(levels, works);
      assert cleared[..|levels|-1] == ClearPending(init, works);
      ClearingPlansAlike(init, works, price, widen);
    }
  }

  /** A price update of an active grid, in any state, carries out the plan for its levels. */
  lemma {:induction false} PricedCarriesOut(s: State, breaker: Option<Breaker>, m: Market)
    requires s.status == Active
    ensures var (widen, buys, _, _) := Regime(breaker, m);
      var d := Execute(OnTrip(s.levels, breaker, m), Plan(s.levels, Trade(m.price, widen)), 0, buys, m.answers);
      var out := Priced(s, breaker, m);
      out.state.levels == d.levels && out.sent == d.sent && out.raised == d.raised
    ensures Sound(s.levels) ==> OnTrip(s.levels, breaker, m) == s.levels
  {
    ClearingPlansAlike(s.levels, m.works, m.price, Regime(breaker, m).0);
    if Sound(s.levels) {
      ClearPendingClearsNothing(s.levels, m.works);
    }
  }

  /** While the breaker stops buying, no price update that trips it, or that ends with it triggered,
      hands a buy to the exchange, whatever state the levels are in. */
  lemma BreakerStopsBuys(s: State, breaker: Breaker, m: Market)
    requires breaker.mode != WidenStep
    requires var t := Ticked(breaker, m.price, m.today, m.reversal, m.gate); t.tripped || t.breaker.triggered
    ensures forall a <- Priced(s, Some(breaker), m).sent :: a.kind == PlaceSell
  {
    SentIsPlanned(s, Some(breaker), m);
  }

  /** With a widened step, the buys sent while the breaker is active lie on levels its multiplier divides,
      and none is sent by the update that trips it. */
  lemma WidenedBuysAreSparse(s: State, breaker: Breaker, m: Market, a: Action)
    requires breaker.mode == WidenStep && AfterTrip(breaker, m.price, m.today).triggered
    requires a in Priced(s, Some(breaker), m).sent && a.kind == PlaceBuy
    ensures !Ticked(breaker, m.price, m.today, m.reversal, m.gate).tripped
    ensures breaker.widen >= 2.0 ==> a.level % breaker.widen.Floor == 0
  {
    SentIsPlanned(s, Some(breaker), m);
    WideningOnlySkipsBuys(s.levels, m.price, StepSize(true, breaker.widen), a);
  }

  lemma {:induction false} SentByPlan(
    levels: seq<Level>, plan: seq<Action>, buys: bool, answers: seq<Option<OrderId>>)
    requires OnlyPlaces(plan)
    ensures forall a <- Execute(levels, plan, 0, buys, answers).sent ::
      a in plan && (a.kind == PlaceBuy ==> buys) && a.kind in {PlaceBuy, PlaceSell}
  {
    SentFromPlan(levels, plan, 0, buys, answers);
  }

  lemma SentIsPlanned(s: State, breaker: Option<Breaker>, m: Market)
    ensures var (widen, buys, _, _) := Regime(breaker, m);
      forall a <- Priced(s, breaker, m).sent ::
        a in Plan(s.levels, Trade(m.price, widen)) && (a.kind == PlaceBuy ==> buys) && a.kind in {PlaceBuy, PlaceSell}
  {
    if s.status == Active {
      var (widen, buys, _, _) := Regime(breaker, m);
      PricedCarriesOut(s, breaker, m);
      PlanOnlyPlaces(s.levels, m.price, widen);
      SentByPlan(OnTrip(s.levels, breaker, m), Plan(s.levels, Trade(m.price, widen)), buys, m.answers);
    }
  }

  lemma {:induction false} SellsOfOne(levels: seq<Level>, a: Action, answer: Option<OrderId>)
    ensures SellsOf(Do(levels, a, answer).sent) == SellOf(a)
  {
    assert [a][1..] == [];
  }

  /** These are the sells to be sent: all of them, or a first part if the loop raised. */
  ghost predicate Sends(sent: seq<Action>, raised: bool, sells: seq<Action>) {
    SellsOf(sent) <= sells && (!raised ==> SellsOf(sent) == sells)
  }

  lemma {:induction false} SendsMore(first: seq<Action>, a: Action, sent: seq<Action>, raised: bool, sells: seq<Action>)
    requires SellsOf(first) == SellOf(a) && Sends(sent, raised, sells)
    ensures Sends(first + sent, raised, SellOf(a) + sells)
  {
    SellsOfConcat(first, sent);
  }

  /** The loop sends the sells of its plan in order, all of them unless it raises. */
  lemma {:induction false} SellsAreSent(
    levels: seq<Level>, plan: seq<Action>, k: nat, buys: bool, answers: seq<Option<OrderId>>)
    requires k <= |plan|
    ensures var d := Execute(levels, plan, k, buys, answers); Sends(d.sent, d.raised, SellsOf(plan[k..]))
    decreases |plan| - k
  {
    if k < |plan| {
      SellsOfMore(plan[k], plan[k + 1..], plan[k..]);
      if plan[k].kind == PlaceBuy && !buys {
        SellsAreSent(levels, plan, k + 1, buys, answers);
      } else {
        var d := Do(levels, plan[k], Answer(answers, k));
        SellsOfOne(levels, plan[k], Answer(answers, k));
        if !d.raised {
          var rest := Execute(d.levels, plan, k + 1, buys, answers);
          SellsAreSent(d.levels, plan, k + 1, buys, answers);
          SendsMore(d.sent, plan[k], rest.sent, rest.raised, SellsOf(plan[k + 1..]));
        }
      }
    }
  }

  /** Exits are never blocked: from any state and whatever the breaker does, an update that does not raise
      hands over the very sells that are planned with no breaker, and one that raises a first part of them. */
  lemma SellsPassTheBreaker(s: State, breaker: Option<Breaker>, m: Market)
    requires s.status == Active
    ensures var out, all := Priced(s, breaker, m), SellsOf(Plan(s.levels, Trade(m.price, 1)));
      SellsOf(out.sent) <= all && (!out.raised ==> SellsOf(out.sent) == all)
  {
    var (widen, buys, _, _) := Regime(breaker, m);
    var plan := Plan(s.levels, Trade(m.price, widen));
    PricedCarriesOut(s, breaker, m);
    SellsAreSent(OnTrip(s.levels, breaker, m), plan, 0, buys, m.answers);
    assert plan[0..] == plan;
    WideningKeepsSells(s.levels, m.price, widen);
  }

  ghost predicate OnlyPlaces(plan: seq<Action>) { forall a <- plan :: Target(a) == Open }

  lemma {:induction false} PlanOnlyPlaces(levels: seq<Level>, price: real, widen: nat)
    ensures OnlyPlaces(Plan(levels, Trade(price, widen)))
  {
    PlanIsWanted(levels, Trade(price, widen));
  }

  /** What a placement does to the level at `i`: another level is left alone, an OPEN one makes it raise. */
  lemma {:induction false} PlacingLeavesOpen(levels: seq<Level>, a: Action, answer: Option<OrderId>, i: nat)
    requires Target(a) == Open && i < |levels|
    ensures var d := Do(levels, a, answer);
      && |d.levels| == |levels| && (forall n :: IndexOf(d.levels, n) == IndexOf(levels, n))
      && (levels[i].status == Open ==> d.levels[i].status == Open)
      && (a.kind == PlaceSell ==> d.levels[i].buyId == levels[i].buyId)
      && (!d.raised ==> IndexOf(levels, a.level) < |levels| && d.levels[IndexOf(levels, a.level)].status == Open)
  {
    var d, j := Do(levels, a, answer), IndexOf(levels, a.level);
    if d.levels != levels {
      forall n ensures IndexOf(d.levels, n) == IndexOf(levels, n) {
        IndexSurvives(levels, j, d.levels[j], n);
      }
    }
  }

  /** A level that is OPEN stays OPEN while a plan to trade is carried out, in any state; and where buys are
      not carried out, no level's buy id is touched. */
  lemma {:induction false} TradingLeavesOpen(
    levels: seq<Level>, plan: seq<Action>, k: nat, buys: bool, answers: seq<Option<OrderId>>, i: nat)
    requires k <= |plan| && OnlyPlaces(plan) && i < |levels|
    ensures var levels' := Execute(levels, plan, k, buys, answers).levels;
      && |levels'| == |levels| && (levels[i].status == Open ==> levels'[i].status == Open)
      && (!buys ==> levels'[i].buyId == levels[i].buyId)
    decreases |plan| - k
  {
    if k < |plan| {
      assert plan[k] in plan;
      if plan[k].kind == PlaceBuy && !buys {
        TradingLeavesOpen(levels, plan, k + 1, buys, answers, i);
      } else {
        var d := Do(levels, plan[k], Answer(answers, k));
        PlacingLeavesOpen(levels, plan[k], Answer(answers, k), i);
        if !d.raised {
          TradingLeavesOpen(d.levels, plan, k + 1, buys, answers, i);
        }
      }
    }
  }

  /** An order of a plan to trade that is carried out leaves its level OPEN, in any state. */
  lemma {:induction false} PlacedEndsOpen(
    levels: seq<Level>, plan: seq<Action>, k: nat, buys: bool, answers: seq<Option<OrderId>>, j: nat)
    requires k <= j < |plan| && OnlyPlaces(plan) && (plan[j].kind == PlaceBuy ==> buys)
    requires !Execute(levels, plan, k, buys, answers).raised
    ensures var i, levels' := IndexOf(levels, plan[j].level), Execute(levels, plan, k, buys, answers).levels;
      i < |levels| == |levels'| && levels'[i].status == Open
    decreases |plan| - k
  {
    assert plan[k] in plan;
    if plan[k].kind == PlaceBuy && !buys {
      PlacedEndsOpen(levels, plan, k + 1, buys, answers, j);
    } else {
      var d, i := Do(levels, plan[k], Answer(answers, k)), IndexOf(levels, plan[k].level);
      assert i < |levels|;
      PlacingLeavesOpen(levels, plan[k], Answer(answers, k), i);
      if k < j {
        PlacedEndsOpen(d.levels, plan, k + 1, buys, answers, j);
      } else {
        TradingLeavesOpen(d.levels, plan, k + 1, buys, answers, i);
      }
    }
  }

  /** Whatever the breaker does and whatever state the levels are in, the sells planned without it all leave
      their levels OPEN, unless the update raises. */
  lemma SellsAlwaysPlaced(s: State, breaker: Option<Breaker>, m: Market, a: Action)
    requires s.status == Active && a in Plan(s.levels, Trade(m.price, 1)) && a.kind == PlaceSell
    requires !Priced(s, breaker, m).raised
    ensures var i, levels' := IndexOf(s.levels, a.level), Priced(s, breaker, m).state.levels;
      i < |s.levels| == |levels'| && levels'[i].status == Open
  {
    var (widen, buys, _, _) := Regime(breaker, m);
    var plan := Plan(s.levels, Trade(m.price, widen));
    PricedCarriesOut(s, breaker, m);
    PlanOnlyPlaces(s.levels, m.price, widen);
    WideningOnlySkipsBuys(s.levels, m.price, widen, a);
    var j :| 0 <= j < |plan| && plan[j] == a;
    ClearingKeepsIndex(s.levels, m.works, a.level);
    PlacedEndsOpen(OnTrip(s.levels, breaker, m), plan, 0, buys, m.answers, j);
  }

  lemma {:induction false} ClearingKeepsIndex(levels: seq<Level>, works: set<int>, n: int)
    ensures IndexOf(ClearPending(levels, works), n) == IndexOf(levels, n)
  {
    if levels != [] {
      assert ClearPending(levels, works)[1..] == ClearPending(levels[1..], works);
      ClearingKeepsIndex(levels[1..], works, n);
    }
  }

  ghost predicate BuyOutstanding(lv: Level) { lv.status == Open && lv.buyId.Some? }

  /** The breaker is documented to cancel all pending buys when it trips. From any state, a buy that is
      outstanding before the tripping update is outstanding after it, under the same id; and while levels
      are coupled to their orders, no other is. */
  lemma TripLeavesBuysOutstanding(s: State, breaker: Breaker, m: Market, i: nat)
    requires s.status == Active && Ticked(breaker, m.price, m.today, m.reversal, m.gate).tripped
    requires i < |s.levels|
    ensures var levels' := Priced(s, Some(breaker), m).state.levels;
      && |levels'| == |s.levels|
      && (BuyOutstanding(s.levels[i]) ==> BuyOutstanding(levels'[i]) && levels'[i].buyId == s.levels[i].buyId)
      && (Sound(s.levels) ==> (BuyOutstanding(levels'[i]) <==> BuyOutstanding(s.levels[i])))
  {
    var widen := Regime(Some(breaker), m).0;
    var plan := Plan(s.levels, Trade(m.price, widen));
    PricedCarriesOut(s, Some(breaker), m);
    PlanOnlyPlaces(s.levels, m.price, widen);
    TradingLeavesOpen(OnTrip(s.levels, Some(breaker), m), plan, 0, false, m.answers, i);
    assert s.levels[i] in s.levels;
  }
}
