/** Grid levels, their two transition tables (state.py) and the planner's decisions (planner.py). */
module Grid {
  import opened Options

  type OrderId = s: string | s != "" witness "0"

  datatype GridStatus = Idle | Initialized | Active | Paused | Completed | Broken

  function GridTransitions(from: GridStatus): set<GridStatus> {
    match from
    case Idle => {Initialized}
    case Initialized => {Active, Broken}
    case Active => {Paused, Completed, Broken}
    case Paused => {Active, Completed, Broken}
    case Broken => {Active, Paused}
    case Completed => {}
  }

  datatype LevelStatus = Waiting | Open | Filled | TpHit | Cancelled

  function LevelTransitions(from: LevelStatus): set<LevelStatus> {
    match from
    case Waiting => {Open, Cancelled}
    case Open => {Filled, Cancelled, Waiting, TpHit}
    case Filled => {Open, TpHit, Cancelled}
    case TpHit => {Waiting, Open}
    case Cancelled => {Waiting}
  }

  /** The statuses from which each status of a grid may be entered. */
  lemma GridEnteredFrom(from: GridStatus, to: GridStatus)
    ensures to in GridTransitions(from) <==>
      match to
      case Idle => false
      case Initialized => from == Idle
      case Active => from in {Initialized, Paused, Broken}
      case Paused => from in {Active, Broken}
      case Completed => from in {Active, Paused}
      case Broken => from in {Initialized, Active, Paused}
  {
  }

  /** And those of a level. */
  lemma LevelEnteredFrom(from: LevelStatus, to: LevelStatus)
    ensures to in LevelTransitions(from) <==>
      match to
      case Waiting => from in {Open, TpHit, Cancelled}
      case Open => from in {Waiting, Filled, TpHit}
      case Filled => from == Open
      case TpHit => from in {Open, Filled}
      case Cancelled => from in {Waiting, Open, Filled}
  {
  }

  datatype Level = Level(
    number: int, buyPrice: real, sellPrice: real, quantity: real,
    buyId: Option<OrderId>, sellId: Option<OrderId>, status: LevelStatus)

  /** `get_level`: the first level with this number, or |levels|. */
  function IndexOf(levels: seq<Level>, number: int): (i: nat)
    ensures i <= |levels|
    ensures i < |levels| ==> levels[i].number == number
    ensures forall j | 0 <= j < i :: levels[j].number != number
  {
    if levels == [] then 0 else if levels[0].number == number then 0 else 1 + IndexOf(levels[1..], number)
  }

  datatype Kind = PlaceBuy | PlaceSell | CancelBuy | CancelSell

  datatype Action = Action(level: int, kind: Kind, price: real, quantity: real, orderId: Option<OrderId>)

  /** `_plan_level`. */
  function PlanLevel(lv: Level, price: real): Option<Action> {
    match lv.status
    case Waiting =>
      if price <= lv.buyPrice then Some(Action(lv.number, PlaceBuy, lv.buyPrice, lv.quantity, None)) else None
    case Filled =>
      if price >= lv.sellPrice then Some(Action(lv.number, PlaceSell, lv.sellPrice, lv.quantity, None)) else None
    case TpHit => Some(Action(lv.number, PlaceBuy, lv.buyPrice, lv.quantity, None))
    case Open => None
    case Cancelled => None
  }

  /** A level is bought for exactly if it hit its target, or waits and the price has come down to its buy price; it is
      sold for exactly if it is filled and the price has come up to its sell price. */
  lemma PlanLevelIff(lv: Level, price: real)
    ensures PlanLevel(lv, price) == Some(Action(lv.number, PlaceBuy, lv.buyPrice, lv.quantity, None)) <==>
      lv.status == TpHit || (lv.status == Waiting && price <= lv.buyPrice)
    ensures PlanLevel(lv, price) == Some(Action(lv.number, PlaceSell, lv.sellPrice, lv.quantity, None)) <==>
      lv.status == Filled && price >= lv.sellPrice
    ensures PlanLevel(lv, price).None? <==>
      || lv.status in {Open, Cancelled} || (lv.status == Waiting && lv.buyPrice < price)
      || (lv.status == Filled && price < lv.sellPrice)
  {
  }

  /** What one pass of the planner wants for a level: `plan` with a widened step, `plan_initial`, `plan_cancel_all`. */
  datatype Wish = Trade(price: real, widen: nat) | Initial(price: real) | CancelAll

  function Wanted(lv: Level, wish: Wish): Option<Action> {
    match wish
    case Trade(price, widen) =>
      var a := PlanLevel(lv, price);
      if widen > 1 && a.Some? && a.value.kind == PlaceBuy && lv.number % widen != 0 then None else a
    case Initial(price) =>
      if lv.status == Waiting && price > lv.buyPrice
      then Some(Action(lv.number, PlaceBuy, lv.buyPrice, lv.quantity, None)) else None
    case CancelAll =>
      if lv.status != Open || (lv.buyId.None? && lv.sellId.None?) then None
      else if lv.buyId.Some? then Some(Action(lv.number, CancelBuy, lv.buyPrice, lv.quantity, lv.buyId))
      else Some(Action(lv.number, CancelSell, lv.buyPrice, lv.quantity, lv.sellId))
  }

  /** The plan: what is wanted for each level, in order. */
  function Plan(levels: seq<Level>, wish: Wish): seq<Action> {
    if levels == [] then []
    else
      var a := Wanted(levels[|levels|-1], wish);
      Plan(levels[..|levels|-1], wish) + if a.Some? then [a.value] else []
  }

  /** The step that `plan` buys at: `int(widen_multiplier)` while the breaker is active, else every level. */
  function StepSize(breakerActive: bool, multiplier: real): nat {
    if breakerActive && multiplier > 1.0 then multiplier.Floor else 1
  }

  /** `GridPlanner` over one grid's levels. */
  method MakePlan(levels: seq<Level>, price: real, breakerActive: bool, multiplier: real) returns (actions: seq<Action>)
    ensures actions == Plan(levels, Trade(price, StepSize(breakerActive, multiplier)))
  {
    actions := [];
    var skipped: set<int> := {};
    var widen := 1;
    if breakerActive && multiplier > 1.0 {
      widen := multiplier.Floor;
      if widen > 1 {
        skipped := set lv | lv in levels && lv.number % widen != 0 :: lv.number;
      }
    }
    for i := 0 to |levels|
      invariant actions == Plan(levels[..i], Trade(price, widen))
    {
      assert levels[..i + 1][..i] == levels[..i];
      assert levels[i] in levels;
      var a := PlanLevel(levels[i], price);
      if a.Some? && !(a.value.kind == PlaceBuy && a.value.level in skipped) {
        actions := actions + [a.value];
      }
    }
    assert levels[..|levels|] == levels;
  }

  method PlanInitial(levels: seq<Level>, price: real) returns (actions: seq<Action>)
    ensures actions == Plan(levels, Initial(price))
  {
    actions := [];
    for i := 0 to |levels|
      invariant actions == Plan(levels[..i], Initial(price))
    {
      assert levels[..i + 1][..i] == levels[..i];
      var lv := levels[i];
      if lv.status == Waiting && price > lv.buyPrice {
        actions := actions + [Action(lv.number, PlaceBuy, lv.buyPrice, lv.quantity, None)];
      }
    }
    assert levels[..|levels|] == levels;
  }

  method PlanCancelAll(levels: seq<Level>) returns (actions: seq<Action>)
    ensures actions == Plan(levels, CancelAll)
  {
    actions := [];
    for i := 0 to |levels|
      invariant actions == Plan(levels[..i], CancelAll)
    {
      assert levels[..i + 1][..i] == levels[..i];
      var lv := levels[i];
      if lv.status == Open {
        var id := if lv.buyId.Some? then lv.buyId else lv.sellId;
        if id.Some? {
          var kind := if lv.buyId.Some? then CancelBuy else CancelSell;
          actions := actions + [Action(lv.number, kind, lv.buyPrice, lv.quantity, id)];
        }
      }
    }
    assert levels[..|levels|] == levels;
  }
}
