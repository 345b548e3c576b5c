/** What pausing a grid takes down, and what resuming it brings back. */
module GridPauses {
  import opened Options
  import opened Grid
  import opened CircuitBreaker
  import opened GridMachine
  import opened GridCoupling

  /** The states after a pause and a resume that the exchange does not fail. */
  ghost predicate PausedAndResumed(
    s: State, breaker: Option<Breaker>, price: real, cancels: seq<Option<OrderId>>,
    places: seq<Option<OrderId>>, s': State)
  {
    var paused := Step(s, breaker, Pause(cancels));
    var resumed := Step(paused.state, breaker, Resume(price, places));
    !paused.raised && !resumed.raised && s' == resumed.state
  }

  predicate HasOrder(lv: Level) { lv.buyId.Some? || lv.sellId.Some? }

  /** The cancel plan, carried out. */
  lemma {:induction false} CancellationSettles(levels: seq<Level>, answers: seq<Option<OrderId>>, i: nat)
    requires Sound(levels) && i < |levels| && !Execute(levels, Plan(levels, CancelAll), 0, true, answers).raised
    ensures var levels' := Execute(levels, Plan(levels, CancelAll), 0, true, answers).levels;
      && |levels'| == |levels|
      && (if levels[i].status == Open then levels'[i].status == Cancelled else levels'[i] == levels[i])
  {
    PlanFits(levels, CancelAll);
    ExecuteSettles(levels, Plan(levels, CancelAll), 0, true, answers);
    PlannedIffWanted(levels, CancelAll, i);
    assert levels[i] in levels;
    if levels[i].status == Open {
      CancelledByPlan(levels, answers, i);
    }
  }

  /** A pause that works cancels every level that is OPEN and leaves the others as they are. */
  lemma PauseCancels(s: State, breaker: Option<Breaker>, cancels: seq<Option<OrderId>>, i: nat)
    requires Sound(s.levels) && i < |s.levels| && !Step(s, breaker, Pause(cancels)).raised
    ensures var levels' := Step(s, breaker, Pause(cancels)).state.levels;
      && |levels'| == |s.levels| && Sound(levels') && SameShape(s.levels, levels')
      && (if s.levels[i].status == Open then levels'[i].status == Cancelled else levels'[i] == s.levels[i])
  {
    PlanStaysSound(s.levels, CancelAll, true, cancels);
    CancellationSettles(s.levels, cancels, i);
  }

  /** The ordinary plan, carried out. */
  lemma {:induction false} TradingSettles(levels: seq<Level>, price: real, answers: seq<Option<OrderId>>, i: nat)
    requires Sound(levels) && i < |levels| && !Execute(levels, Plan(levels, Trade(price, 1)), 0, true, answers).raised
    ensures var levels' := Execute(levels, Plan(levels, Trade(price, 1)), 0, true, answers).levels;
      && |levels'| == |levels|
      && (if Wanted(levels[i], Trade(price, 1)).Some? then levels'[i].status == Open else levels'[i] == levels[i])
  {
    PlanFits(levels, Trade(price, 1));
    ExecuteSettles(levels, Plan(levels, Trade(price, 1)), 0, true, answers);
    PlannedIffWanted(levels, Trade(price, 1), i);
    if Wanted(levels[i], Trade(price, 1)).Some? {
      OpenedByPlan(levels, price, answers, i);
    }
  }

  /** A resume that works puts an order out for every level the planner wants one for, and touches no other. */
  lemma ResumePlaces(s: State, breaker: Option<Breaker>, price: real, places: seq<Option<OrderId>>, i: nat)
    requires Sound(s.levels) && i < |s.levels| && !Step(s, breaker, Resume(price, places)).raised
    ensures var levels' := Step(s, breaker, Resume(price, places)).state.levels;
      && |levels'| == |s.levels| && Sound(levels')
      && (if Wanted(s.levels[i], Trade(price, 1)).Some? then levels'[i].status == Open else levels'[i] == s.levels[i])
  {
    PlanStaysSound(s.levels, Trade(price, 1), true, places);
    TradingSettles(s.levels, price, places, i);
  }

  lemma {:induction false} OpenedByPlan(levels: seq<Level>, price: real, answers: seq<Option<OrderId>>, i: nat)
    requires Sound(levels) && i < |levels| && Wanted(levels[i], Trade(price, 1)).Some?
    requires !Execute(levels, Plan(levels, Trade(price, 1)), 0, true, answers).raised
    ensures var levels' := Execute(levels, Plan(levels, Trade(price, 1)), 0, true, answers).levels;
      |levels'| == |levels| && levels'[i].status == Open
  {
    var plan := Plan(levels, Trade(price, 1));
    PlanFits(levels, Trade(price, 1));
    PlannedIffWanted(levels, Trade(price, 1), i);
    var j :| 0 <= j < |plan| && plan[j].level == levels[i].number;
    PlanOnlyPlaces(levels, price, 1);
    IndexIsUnique(levels, i);
    ReachesTarget(levels, plan, 0, true, answers, j);
  }

  /** Level by level: after a pause and a resume a level has an order exactly when it was not OPEN before
      and the planner wants it at the price of the resume. */
  lemma OrderAfterResumeIff(
    s: State, breaker: Option<Breaker>, price: real, cancels: seq<Option<OrderId>>,
    places: seq<Option<OrderId>>, s': State, i: nat)
    requires Sound(s.levels) && i < |s.levels| && PausedAndResumed(s, breaker, price, cancels, places, s')
    ensures |s'.levels| == |s.levels|
    ensures HasOrder(s'.levels[i]) <==> s.levels[i].status != Open && Wanted(s.levels[i], Trade(price, 1)).Some?
  {
    var paused := Step(s, breaker, Pause(cancels)).state;
    PauseCancels(s, breaker, cancels, i);
    ResumePlaces(paused, breaker, price, places, i);
    assert paused.levels[i] in paused.levels && s'.levels[i] in s'.levels && s.levels[i] in s.levels;
  }

  /** Resuming is meant to place the orders again that the pause cancelled. It does so for all of them if and
      only if there were none. */
  lemma ResumeRestoresIff(
    s: State, breaker: Option<Breaker>, price: real, cancels: seq<Option<OrderId>>,
    places: seq<Option<OrderId>>, s': State)
    requires Sound(s.levels) && PausedAndResumed(s, breaker, price, cancels, places, s')
    ensures |s'.levels| == |s.levels|
    ensures (forall i | 0 <= i < |s.levels| :: HasOrder(s.levels[i]) ==> HasOrder(s'.levels[i]))
       <==> forall i | 0 <= i < |s.levels| :: s.levels[i].status != Open
  {
    if |s.levels| > 0 {
      PauseCancels(s, breaker, cancels, 0);
      OrderAfterResumeIff(s, breaker, price, cancels, places, s', 0);
    } else {
      PlanStaysSound(s.levels, CancelAll, true, cancels);
      PlanStaysSound(Step(s, breaker, Pause(cancels)).state.levels, Trade(price, 1), true, places);
    }
    forall i | 0 <= i < |s.levels|
      ensures HasOrder(s.levels[i]) <==> s.levels[i].status == Open
      ensures s.levels[i].status == Open ==> !HasOrder(s'.levels[i])
    {
      assert s.levels[i] in s.levels;
      OrderAfterResumeIff(s, breaker, price, cancels, places, s', i);
    }
  }
}
