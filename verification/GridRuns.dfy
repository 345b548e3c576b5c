/** Whole runs of a grid: cycles, profit and inventory add up. */
module GridRuns {
  import opened Options
  import opened RealMath
  import opened Grid
  import opened CircuitBreaker
  import opened GridMachine
  import opened GridCoupling
  import GridCalculator

  datatype Fill = Bought(level: int) | Sold(level: int, price: real, quantity: real)

  /** A grid with its breaker and the fills it has accepted so far. */
  datatype World = World(state: State, breaker: Option<Breaker>, fills: seq<Fill>)

  ghost function FillOf(e: Event): seq<Fill> {
    match e
    case BuyFill(n, _) => [Bought(n)]
    case SellFill(n, price, quantity) => [Sold(n, price, quantity)]
    case _ => []
  }

  ghost function Next(w: World, e: Event): World {
    var out := Step(w.state, w.breaker, e);
    World(out.state, out.breaker, w.fills + FillOf(e))
  }

  ghost function Start(levels: seq<Level>): World { World(State(Initialized, levels, 0, 0.0, None), None, []) }

  ghost predicate Behaviour(ws: seq<World>, es: seq<Event>, levels: seq<Level>) {
    && |ws| == |es| + 1 && ws[0] == Start(levels)
    && forall k | 0 <= k < |es| :: Reported(ws[k].state, es[k]) && ws[k + 1] == Next(ws[k], es[k])
  }

  /** A new grid: distinct levels, all waiting. */
  ghost predicate Untouched(levels: seq<Level>) {
    Unique(levels) && forall lv <- levels :: lv.status == Waiting && lv.buyId == None && lv.sellId == None
  }

  // ------------------------------------------------------------------ the books

  function Sells(fills: seq<Fill>): nat {
    if fills == [] then 0 else Sells(fills[..|fills|-1]) + if fills[|fills|-1].Sold? then 1 else 0
  }

  /** What the sells earned over the buy prices of their levels. */
  function Earned(levels: seq<Level>, fills: seq<Fill>): real {
    if fills == [] then 0.0
    else
      var before, last := Earned(levels, fills[..|fills|-1]), fills[|fills|-1];
      var i := IndexOf(levels, last.level);
      if last.Sold? && i < |levels| then before + Gain(levels[i], last.price, last.quantity) else before
  }

  /** The fills of one level, true for a buy. */
  function Trades(fills: seq<Fill>, n: int): seq<bool> {
    if fills == [] then []
    else
      var before, last := Trades(fills[..|fills|-1], n), fills[|fills|-1];
      if last.level == n then before + [last.Bought?] else before
  }

  ghost predicate Alternate(trades: seq<bool>) { forall k | 0 <= k < |trades| :: trades[k] <==> k % 2 == 0 }

  /** A level holds coins exactly after an odd number of its fills. */
  ghost predicate Balanced(lv: Level, trades: seq<bool>) {
    && Alternate(trades)
    && (StanceOf(lv) == Free ==> |trades| % 2 == 0) && (StanceOf(lv) == Holding ==> |trades| % 2 == 1)
  }

  ghost predicate Inv(w: World, levels: seq<Level>) {
    && Sound(w.state.levels) && SameShape(levels, w.state.levels)
    && w.state.cycles == Sells(w.fills) && w.state.profit == Earned(levels, w.fills)
    && forall i | 0 <= i < |levels| :: Balanced(w.state.levels[i], Trades(w.fills, levels[i].number))
  }

  lemma {:induction false} SameIndex(levels: seq<Level>, levels': seq<Level>, n: int)
    requires SameShape(levels, levels')
    ensures IndexOf(levels', n) == IndexOf(levels, n)
  {
    if levels != [] {
      assert SameLevel(levels[0], levels'[0]);
      forall i | 0 <= i < |levels[1..]| ensures SameLevel(levels[1..][i], levels'[1..][i]) {
        assert SameLevel(levels[i + 1], levels'[i + 1]);
      }
      SameIndex(levels[1..], levels'[1..], n);
    }
  }

  lemma ShapeIsTransitive(a: seq<Level>, b: seq<Level>, c: seq<Level>)
    requires SameShape(a, b) && SameShape(b, c)
    ensures SameShape(a, c)
  {
    forall i | 0 <= i < |a| ensures SameLevel(a[i], c[i]) {
      assert SameLevel(a[i], b[i]) && SameLevel(b[i], c[i]);
    }
  }

  /** A fill of level `i` is the next of its trades, and no other level's. */
  lemma {:induction false} TradesAfter(fills: seq<Fill>, f: Fill, n: int)
    ensures Trades(fills + [f], n) == if f.level == n then Trades(fills, n) + [f.Bought?] else Trades(fills, n)
  {
    assert (fills + [f])[..|fills|] == fills;
  }

  lemma TradeKeepsBalance(lv: Level, lv': Level, trades: seq<bool>, bought: bool)
    requires Balanced(lv, trades)
    requires StanceOf(lv) == (if bought then Free else Holding) && StanceOf(lv') == (if bought then Holding else Free)
    ensures Balanced(lv', trades + [bought])
  {
  }

  lemma {:induction false} FillKeepsBalance(levels: seq<Level>, levels': seq<Level>, base: seq<Level>,
      fills: seq<Fill>, f: Fill, i: nat)
    requires Unique(levels) && SameShape(base, levels) && i < |levels| && |levels'| == |levels|
      && f.level == levels[i].number
    requires forall k | 0 <= k < |base| :: Balanced(levels[k], Trades(fills, base[k].number))
    requires forall k | 0 <= k < |levels| && k != i :: levels'[k] == levels[k]
    requires StanceOf(levels[i]) == if f.Bought? then Free else Holding
    requires StanceOf(levels'[i]) == if f.Bought? then Holding else Free
    ensures forall k | 0 <= k < |base| :: Balanced(levels'[k], Trades(fills + [f], base[k].number))
  {
    forall k | 0 <= k < |base| ensures Balanced(levels'[k], Trades(fills + [f], base[k].number)) {
      assert SameLevel(base[k], levels[k]);
      TradesAfter(fills, f, base[k].number);
      if k == i {
        TradeKeepsBalance(levels[i], levels'[i], Trades(fills, base[k].number), f.Bought?);
      } else {
        assert levels[k].number != levels[i].number;
      }
    }
  }

  lemma BuyFillKeepsInv(w: World, levels: seq<Level>, e: Event)
    requires Inv(w, levels) && Reported(w.state, e) && e.BuyFill?
    ensures Inv(Next(w, e), levels)
  {
    var i := IndexOf(w.state.levels, e.level);
    assert w.state.levels[i] in w.state.levels;
    BuyFillStaysSound(w.state, e.level, e.answer);
    var d := BuyFilled(w.state, e.level, e.answer);
    assert d.levels[i] in d.levels;
    ShapeIsTransitive(levels, w.state.levels, d.levels);
    FillKeepsBalance(w.state.levels, d.levels, levels, w.fills, Bought(e.level), i);
    assert (w.fills + [Bought(e.level)])[..|w.fills|] == w.fills;
  }

  /** A fill's part in the books. */
  lemma {:induction false} BooksAfter(levels: seq<Level>, fills: seq<Fill>, f: Fill)
    ensures Sells(fills + [f]) == Sells(fills) + if f.Sold? then 1 else 0
    ensures var i := IndexOf(levels, f.level);
      Earned(levels, fills + [f])
        == Earned(levels, fills) + if f.Sold? && i < |levels| then Gain(levels[i], f.price, f.quantity) else 0.0
  {
    assert (fills + [f])[..|fills|] == fills;
  }

  lemma SameGain(lv: Level, lv': Level, fill: real, quantity: real)
    requires lv.buyPrice == lv'.buyPrice
    ensures Gain(lv, fill, quantity) == Gain(lv', fill, quantity)
  {
  }

  lemma {:induction false} SellKeepsBooks(w: World, levels: seq<Level>, e: Event)
    requires Inv(w, levels) && Reported(w.state, e) && e.SellFill?
    ensures Next(w, e).state.cycles == Sells(Next(w, e).fills)
      && Next(w, e).state.profit == Earned(levels, Next(w, e).fills)
  {
    var i := IndexOf(w.state.levels, e.level);
    SameIndex(levels, w.state.levels, e.level);
    assert SameLevel(levels[i], w.state.levels[i]);
    SameGain(levels[i], w.state.levels[i], e.fill, e.quantity);
    BooksAfter(levels, w.fills, Sold(e.level, e.fill, e.quantity));
  }

  lemma SellFillKeepsInv(w: World, levels: seq<Level>, e: Event)
    requires Inv(w, levels) && Reported(w.state, e) && e.SellFill?
    ensures Inv(Next(w, e), levels)
  {
    var i := IndexOf(w.state.levels, e.level);
    assert w.state.levels[i] in w.state.levels;
    StepStaysSound(w.state, w.breaker, e);
    SellKeepsBooks(w, levels, e);
    var sold := SellFilled(w.state, e.level, e.fill, e.quantity).value;
    ShapeIsTransitive(levels, w.state.levels, sold.levels);
    FillKeepsBalance(w.state.levels, sold.levels, levels, w.fills, Sold(e.level, e.fill, e.quantity), i);
  }

  lemma StepKeepsInv(w: World, levels: seq<Level>, e: Event)
    requires Inv(w, levels) && Reported(w.state, e)
    ensures Inv(Next(w, e), levels)
  {
    if e.BuyFill? {
      BuyFillKeepsInv(w, levels, e);
    } else if e.SellFill? {
      SellFillKeepsInv(w, levels, e);
    } else {
      StepStaysSound(w.state, w.breaker, e);
      var w' := Next(w, e);
      ShapeIsTransitive(levels, w.state.levels, w'.state.levels);
      assert w'.fills == w.fills;
      forall i | 0 <= i < |levels| ensures Balanced(w'.state.levels[i], Trades(w.fills, levels[i].number)) {
        assert Balanced(w.state.levels[i], Trades(w.fills, levels[i].number));
        assert Stays(w.state.levels[i], w'.state.levels[i]);
      }
    }
  }

  lemma {:induction false} RunKeepsInv(ws: seq<World>, es: seq<Event>, levels: seq<Level>, k: nat)
    requires Untouched(levels) && Behaviour(ws, es, levels) && k < |ws|
    ensures Inv(ws[k], levels)
  {
    if k == 0 {
      forall i | 0 <= i < |levels| ensures Balanced(levels[i], Trades([], levels[i].number)) {
        assert levels[i] in levels;
      }
    } else {
      RunKeepsInv(ws, es, levels, k - 1);
      StepKeepsInv(ws[k - 1], levels, es[k - 1]);
    }
  }

  // ------------------------------------------------------------------ main results

  /** In every reachable state, every level is coupled to its orders: OPEN has exactly one, any other
      status none. */
  lemma LevelsStayCoupled(ws: seq<World>, es: seq<Event>, levels: seq<Level>, k: nat)
    requires Untouched(levels) && Behaviour(ws, es, levels) && k < |ws|
    ensures forall lv <- ws[k].state.levels ::
      if lv.status == Open then lv.buyId.Some? <==> lv.sellId.None? else lv.buyId.None? && lv.sellId.None?
  {
    RunKeepsInv(ws, es, levels, k);
  }

  /** The accepted fills of a level alternate, a buy first, and every sell counts as one cycle. */
  lemma FillsAlternate(ws: seq<World>, es: seq<Event>, levels: seq<Level>, k: nat, i: nat)
    requires Untouched(levels) && Behaviour(ws, es, levels) && k < |ws| && i < |levels|
    ensures Alternate(Trades(ws[k].fills, levels[i].number)) && ws[k].state.cycles == Sells(ws[k].fills)
  {
    RunKeepsInv(ws, es, levels, k);
    assert Balanced(ws[k].state.levels[i], Trades(ws[k].fills, levels[i].number));
  }

  /** Every sell sold the whole quantity of its level at the level's limit or better. */
  ghost predicate SoldAtLimit(levels: seq<Level>, fills: seq<Fill>) {
    forall f <- fills :: f.Sold? ==>
      var i := IndexOf(levels, f.level);
      i < |levels| && f.price >= levels[i].sellPrice && f.quantity == levels[i].quantity
  }

  ghost predicate EvenGrid(levels: seq<Level>, upper: real, lower: real, count: int, investment: real) {
    && GridCalculator.Accepts(upper, lower, count, investment) && lower > 0.0 && |levels| == count
    && forall i | 0 <= i < count :: levels[i] == GridCalculator.EvenLevel(upper, lower, count, investment, i)
  }

  /** Selling the level whole at its limit earns at least `gain`. */
  ghost predicate Worth(lv: Level, gain: real) {
    lv.quantity >= 0.0 && (lv.sellPrice - lv.buyPrice) * lv.quantity >= gain
  }

  lemma SaleEarns(lv: Level, gain: real, price: real)
    requires Worth(lv, gain) && price >= lv.sellPrice
    ensures Gain(lv, price, lv.quantity) >= gain
  {
    MulLe(lv.sellPrice - lv.buyPrice, price - lv.buyPrice, lv.quantity);
  }

  function Times(n: nat, gain: real): real { n as real * gain }

  lemma OneMoreTime(n: nat, gain: real)
    ensures Times(n + 1, gain) == Times(n, gain) + gain
  {
    Distribute(n as real, 1.0, gain);
  }

  lemma {:induction false} SellsEarn(levels: seq<Level>, fills: seq<Fill>, gain: real)
    requires SoldAtLimit(levels, fills) && forall lv <- levels :: Worth(lv, gain)
    ensures Earned(levels, fills) >= Times(Sells(fills), gain)
  {
    if fills != [] {
      var init, last := fills[..|fills|-1], fills[|fills|-1];
      assert last in fills && forall f <- init :: f in fills;
      SellsEarn(levels, init, gain);
      OneMoreTime(Sells(init), gain);
      if last.Sold? {
        var i := IndexOf(levels, last.level);
        assert levels[i] in levels;
        SaleEarns(levels[i], gain, last.price);
      }
    }
  }

  /** One spacing on the smallest quantity that the investment of a level buys. */
  ghost function CycleGain(upper: real, lower: real, count: int, investment: real): real
    requires count > 0 && upper != 0.0
  {
    GridCalculator.Spacing(upper, lower, count) * (investment / upper)
  }

  lemma EvenLevelIsWorth(upper: real, lower: real, count: int, investment: real, i: nat)
    requires GridCalculator.Accepts(upper, lower, count, investment) && lower > 0.0 && i < count
    ensures
      Worth(GridCalculator.EvenLevel(upper, lower, count, investment, i), CycleGain(upper, lower, count, investment))
  {
    var lv := GridCalculator.EvenLevel(upper, lower, count, investment, i);
    GridCalculator.EvenLevelBounds(upper, lower, count, investment, i);
    GridCalculator.CycleEarns(upper, lower, count, investment, i, lv.sellPrice);
    assert investment / upper > 0.0;
  }

  lemma EvenGridIsUntouched(levels: seq<Level>, upper: real, lower: real, count: int, investment: real)
    requires EvenGrid(levels, upper, lower, count, investment)
    ensures Untouched(levels)
  {
    forall i | 0 <= i < count
      ensures levels[i].number == i && levels[i].status == Waiting && levels[i].buyId == levels[i].sellId == None
    {
      assert levels[i] == GridCalculator.EvenLevel(upper, lower, count, investment, i);
    }
  }

  lemma EvenGridIsWorth(levels: seq<Level>, upper: real, lower: real, count: int, investment: real, gain: real)
    requires EvenGrid(levels, upper, lower, count, investment) && gain == CycleGain(upper, lower, count, investment)
    ensures forall lv <- levels :: Worth(lv, gain)
  {
    forall lv <- levels ensures Worth(lv, gain) {
      var i :| 0 <= i < |levels| && levels[i] == lv;
      EvenLevelIsWorth(upper, lower, count, investment, i);
    }
  }

  /** The counters are the fills, told once: cycles the number of sells, profit their sum. */
  lemma {:induction false} BooksBalance(ws: seq<World>, es: seq<Event>, levels: seq<Level>, k: nat)
    requires Untouched(levels) && Behaviour(ws, es, levels) && k < |ws|
    ensures ws[k].state.cycles == Sells(ws[k].fills) && ws[k].state.profit == Earned(levels, ws[k].fills)
  {
    RunKeepsInv(ws, es, levels, k);
  }

  lemma ProfitAtLeast(ws: seq<World>, es: seq<Event>, levels: seq<Level>, k: nat, gain: real)
    requires Untouched(levels) && Behaviour(ws, es, levels) && k < |ws| && SoldAtLimit(levels, ws[k].fills)
    requires forall lv <- levels :: Worth(lv, gain)
    ensures ws[k].state.profit >= Times(ws[k].state.cycles, gain)
  {
    BooksBalance(ws, es, levels, k);
    SellsEarn(levels, ws[k].fills, gain);
  }

  /** Grid accounting: on an evenly spaced grid whose sells fill whole at their limit or better, the
      total profit is at least one spacing on the smallest quantity, for every cycle. */
  lemma ProfitPerCycle(ws: seq<World>, es: seq<Event>, levels: seq<Level>, k: nat, upper: real, lower: real,
      count: int, investment: real)
    requires EvenGrid(levels, upper, lower, count, investment) && Behaviour(ws, es, levels) && k < |ws|
    requires SoldAtLimit(levels, ws[k].fills)
    ensures ws[k].state.profit >= Times(ws[k].state.cycles, CycleGain(upper, lower, count, investment))
  {
    EvenGridIsUntouched(levels, upper, lower, count, investment);
    EvenGridIsWorth(levels, upper, lower, count, investment, CycleGain(upper, lower, count, investment));
    ProfitAtLeast(ws, es, levels, k, CycleGain(upper, lower, count, investment));
  }

  /** Resuming is meant to place the orders again, but nothing ever leaves CANCELLED: a level that was
      cancelled, by a pause say, stays exactly as it is in the rest of every run. */
  lemma {:induction false} CancelledForever(ws: seq<World>, es: seq<Event>, levels: seq<Level>, j: nat, k: nat, i: nat)
    requires Untouched(levels) && Behaviour(ws, es, levels) && j <= k < |ws|
    requires i < |ws[j].state.levels| && ws[j].state.levels[i].status == Cancelled
    ensures i < |ws[k].state.levels| && ws[k].state.levels[i] == ws[j].state.levels[i]
  {
    if j < k {
      CancelledForever(ws, es, levels, j, k - 1, i);
      RunKeepsInv(ws, es, levels, k - 1);
      CancelledStays(ws[k - 1], es[k - 1], i);
    }
  }

  lemma CancelledStays(w: World, e: Event, i: nat)
    requires Sound(w.state.levels) && Reported(w.state, e) && i < |w.state.levels|
      && w.state.levels[i].status == Cancelled
    ensures i < |Next(w, e).state.levels| && Next(w, e).state.levels[i] == w.state.levels[i]
  {
    StepStaysSound(w.state, w.breaker, e);
    if e.BuyFill? {
      BuyFillStaysSound(w.state, e.level, e.answer);
    } else if !e.SellFill? {
      assert Stays(w.state.levels[i], Next(w, e).state.levels[i]);
    }
  }
}
