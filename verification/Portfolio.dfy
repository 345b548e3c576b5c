/** Positions and their cost basis (portfolio.py). */
module Portfolio {
  import opened RealMath

  datatype Position = Position(
    instance: string, account: string, exchange: string, symbol: string, side: string,
    entry: real, quantity: real, realized: real, closed: bool)

  datatype Fill = Fill(price: real, quantity: real, side: string)

  predicate Opens(p: Position, side: string) {
    (p.side == "long" && side == "buy") || (p.side == "short" && side == "sell")
  }

  /** Whether `update_position` accepts a fill: it raises on a closed position, on an oversized closing
      fill, and on an opening fill that leaves nothing to average over. */
  predicate Accepts(p: Position, f: Fill) {
    !p.closed && if Opens(p, f.side) then p.quantity + f.quantity != 0.0 else f.quantity <= p.quantity
  }

  function Value(price: real, quantity: real): real { price * quantity }

  function Filled(p: Position, f: Fill): Position {
    if !Accepts(p, f) then p
    else if Opens(p, f.side) then
      var total := p.quantity + f.quantity;
      p.(entry := (Value(p.entry, p.quantity) + Value(f.price, f.quantity)) / total, quantity := total)
    else
      var pnl :=
        if p.side == "long" then Value(f.price - p.entry, f.quantity) else Value(p.entry - f.price, f.quantity);
      p.(realized := p.realized + pnl, quantity := p.quantity - f.quantity, closed := p.quantity - f.quantity == 0.0)
  }

  function Opened(instance: string, account: string, exchange: string, symbol: string, side: string, entry: real,
      quantity: real): Position
  {
    Position(instance, account, exchange, symbol, side, entry, quantity, 0.0, false)
  }

  predicate Registrable(p: Position) { p.side in {"long", "short"} && p.entry > 0.0 && p.quantity > 0.0 }

  /** The open positions in the order they were registered, and those closed by force. */
  datatype Book = Book(positions: seq<Position>, closed: seq<Position>)

  function IndexOf(ps: seq<Position>, instance: string): (i: nat)
    ensures i <= |ps| && (i < |ps| ==> ps[i].instance == instance)
    ensures forall j | 0 <= j < i :: ps[j].instance != instance
  {
    if ps == [] then 0 else if ps[0].instance == instance then 0 else 1 + IndexOf(ps[1..], instance)
  }

  function Registered(b: Book, p: Position): Book {
    if IndexOf(b.positions, p.instance) < |b.positions| || !Registrable(p) then b
      else b.(positions := b.positions + [p])
  }

  function Updated(b: Book, instance: string, f: Fill): Book {
    var i := IndexOf(b.positions, instance);
    if i == |b.positions| then b else b.(positions := b.positions[i := Filled(b.positions[i], f)])
  }

  function Closed(b: Book, instance: string): Book {
    var i := IndexOf(b.positions, instance);
    if i == |b.positions| then b
    else Book(b.positions[..i] + b.positions[i + 1..], b.closed + [b.positions[i].(closed := true)])
  }

  /** `PortfolioManager`, updated in place. Each method says whether it succeeded or raised. */
  class PortfolioManager {
    var positions: seq<Position>
    var closedPositions: seq<Position>

    function View(): Book reads this { Book(positions, closedPositions) }

    constructor ()
      ensures View() == Book([], [])
    {
      positions, closedPositions := [], [];
    }

    method GetPosition(instance: string) returns (i: nat)
      ensures i == IndexOf(positions, instance)
    {
      i := 0;
      while i < |positions| && positions[i].instance != instance
        invariant i <= |positions| && forall j | 0 <= j < i :: positions[j].instance != instance
      {
        i := i + 1;
      }
    }

    method RegisterPosition(p: Position) returns (ok: bool)
      requires p.realized == 0.0 && !p.closed
      modifies this
      ensures View() == Registered(old(View()), p)
      ensures ok <==> IndexOf(old(positions), p.instance) == |old(positions)| && Registrable(p)
    {
      var i := GetPosition(p.instance);
      if i < |positions| || p.side !in {"long", "short"} || p.entry <= 0.0 || p.quantity <= 0.0 {
        return false;
      }
      positions := positions + [p];
      return true;
    }

    method UpdatePosition(instance: string, price: real, quantity: real, side: string) returns (ok: bool)
      modifies this
      ensures View() == Updated(old(View()), instance, Fill(price, quantity, side))
      ensures var i := IndexOf(old(positions), instance);
        ok <==> i < |old(positions)| && Accepts(old(positions)[i], Fill(price, quantity, side))
    {
      var i := GetPosition(instance);
      if i == |positions| || positions[i].closed {
        return false;
      }
      var p := positions[i];
      if (p.side == "long" && side == "buy") || (p.side == "short" && side == "sell") {
        var totalCost := Value(p.entry, p.quantity) + Value(price, quantity);
        var totalQuantity := p.quantity + quantity;
        if totalQuantity == 0.0 {
          return false;
        }
        positions := positions[i := p.(entry := totalCost / totalQuantity, quantity := totalQuantity)];
      } else {
        if quantity > p.quantity {
          return false;
        }
        var pnl := if p.side == "long" then Value(price - p.entry, quantity) else Value(p.entry - price, quantity);
        p := p.(realized := p.realized + pnl, quantity := p.quantity - quantity);
        if p.quantity == 0.0 {
          p := p.(closed := true);
        }
        positions := positions[i := p];
      }
      return true;
    }

    method ClosePosition(instance: string) returns (ok: bool)
      modifies this
      ensures View() == Closed(old(View()), instance) && (ok <==> IndexOf(old(positions), instance) < |old(positions)|)
    {
      var i := GetPosition(instance);
      if i == |positions| {
        return false;
      }
      var p := positions[i].(closed := true);
      positions := positions[..i] + positions[i + 1..];
      closedPositions := closedPositions + [p];
      return true;
    }
  }

  // ------------------------------------------------------------------ what each call does

  /** A long position is opened further by a "buy" and a short one by a "sell": the quantities add up, and so do
      the costs. */
  lemma OpeningFill(p: Position, f: Fill)
    requires (p.side == "long" && f.side == "buy") || (p.side == "short" && f.side == "sell")
    ensures Accepts(p, f) <==> !p.closed && p.quantity + f.quantity != 0.0
    ensures var q := Filled(p, f);
      if !Accepts(p, f) then q == p
      else
        && q == p.(entry := q.entry, quantity := p.quantity + f.quantity)
        && q.entry * q.quantity == p.entry * p.quantity + f.price * f.quantity
  {
    if Accepts(p, f) {
      var total := p.quantity + f.quantity;
      var cost := Value(p.entry, p.quantity) + Value(f.price, f.quantity);
      assert cost / total * total == cost;
    }
  }

  /** Any other fill closes: a long position earns what the price rose, a short one what it fell, per unit. */
  lemma ClosingFill(p: Position, f: Fill)
    requires (p.side == "long" && f.side != "buy") || (p.side == "short" && f.side != "sell")
    ensures Accepts(p, f) <==> !p.closed && f.quantity <= p.quantity
    ensures var q := Filled(p, f);
      if !Accepts(p, f) then q == p
      else
        && q == p.(realized := q.realized, quantity := p.quantity - f.quantity, closed := q.quantity == 0.0)
        && (p.side == "long" ==> q.realized == p.realized + (f.price - p.entry) * f.quantity)
        && (p.side == "short" ==> q.realized == p.realized + (p.entry - f.price) * f.quantity)
  {
  }

  /** Every instance has one open position at most. */
  ghost predicate OnePerInstance(b: Book) {
    forall i, j | 0 <= i < j < |b.positions| :: b.positions[i].instance != b.positions[j].instance
  }

  /** A position is taken on exactly if its instance has none, its side is known, and its entry price and its
      quantity are positive. */
  lemma RegisteredIff(b: Book, p: Position)
    requires OnePerInstance(b)
    ensures OnePerInstance(Registered(b, p))
    ensures Registered(b, p) ==
      if (forall q <- b.positions :: q.instance != p.instance) && p.side in {"long", "short"} && p.entry > 0.0
        && p.quantity > 0.0
      then Book(b.positions + [p], b.closed) else b
  {
  }

  /** A fill reaches the position of its instance, and no other. */
  lemma UpdatedReachesOne(b: Book, instance: string, f: Fill)
    requires OnePerInstance(b)
    ensures var b' := Updated(b, instance, f);
      && OnePerInstance(b') && b'.closed == b.closed && |b'.positions| == |b.positions|
      && forall i | 0 <= i < |b.positions| ::
           b'.positions[i] == if b.positions[i].instance == instance then Filled(b.positions[i], f) else b.positions[i]
  {
  }

  /** Closing by force moves the position of the instance, marked closed, and leaves the others as they were. */
  lemma ClosedMovesOne(b: Book, instance: string)
    requires OnePerInstance(b)
    ensures var b' := Closed(b, instance);
      && OnePerInstance(b')
      && (forall p :: p in b'.positions <==> p in b.positions && p.instance != instance)
      && (forall p <- b.positions :: p.instance == instance ==> b'.closed == b.closed + [p.(closed := true)])
      && ((forall p <- b.positions :: p.instance != instance) ==> b' == b)
  {
    var i := IndexOf(b.positions, instance);
    if i < |b.positions| {
      var rest := b.positions[..i] + b.positions[i + 1..];
      assert forall k | 0 <= k < |b.positions| && k != i :: b.positions[k] in rest by {
        assert forall k | 0 <= k < i :: rest[k] == b.positions[k];
        assert forall k | i < k < |b.positions| :: rest[k - 1] == b.positions[k];
      }
    }
  }

  // ------------------------------------------------------------------ conservation

  function After(p: Position, fills: seq<Fill>): Position {
    if fills == [] then p else Filled(After(p, fills[..|fills|-1]), fills[|fills|-1])
  }

  /** Money that changed hands: what the sales brought in less what the purchases cost, the registered
      position included. Rejected fills move no money. */
  function CashFlow(p: Position, fills: seq<Fill>): real {
    if fills == [] then if p.side == "long" then -Value(p.entry, p.quantity) else Value(p.entry, p.quantity)
    else
      var before, f := CashFlow(p, fills[..|fills|-1]), fills[|fills|-1];
      if !Accepts(After(p, fills[..|fills|-1]), f) then before
      else if Opens(p, f.side) == (p.side == "long") then before - Value(f.price, f.quantity)
      else before + Value(f.price, f.quantity)
  }

  /** What is still held, at cost: an asset for a long position, a debt for a short one. */
  function HeldAtCost(p: Position): real {
    if p.side == "long" then Value(p.entry, p.quantity) else -Value(p.entry, p.quantity)
  }

  function HeldAt(p: Position, price: real): real {
    if p.side == "long" then Value(price, p.quantity) else -Value(price, p.quantity)
  }

  function Unrealized(p: Position, price: real): real {
    if p.side == "long" then Value(price - p.entry, p.quantity) else Value(p.entry - price, p.quantity)
  }

  lemma FillConserves(p: Position, f: Fill)
    requires Accepts(p, f) && p.side in {"long", "short"}
    ensures var p' := Filled(p, f);
      p'.side == p.side && p'.realized - HeldAtCost(p') == p.realized - HeldAtCost(p)
        + if Opens(p, f.side) == (p.side == "long") then -Value(f.price, f.quantity) else Value(f.price, f.quantity)
  {
    if Opens(p, f.side) {
      var cost, total := Value(p.entry, p.quantity) + Value(f.price, f.quantity), p.quantity + f.quantity;
      assert cost / total * total == cost;
      assert Value(Filled(p, f).entry, Filled(p, f).quantity) == cost;
    } else {
      assert Value(p.entry, p.quantity - f.quantity) == Value(p.entry, p.quantity) - Value(p.entry, f.quantity);
    }
  }

  /** Cost-basis conservation: after any run of fills, accepted or not, the realized profit is the cash
      that changed hands plus what is still held at cost. */
  lemma {:induction false} RealizedIsCashPlusHeld(p: Position, fills: seq<Fill>)
    requires Registrable(p) && p.realized == 0.0 && !p.closed
    ensures After(p, fills).side == p.side
    ensures After(p, fills).realized == CashFlow(p, fills) + HeldAtCost(After(p, fills))
  {
    if fills != [] {
      var init, f := fills[..|fills|-1], fills[|fills|-1];
      RealizedIsCashPlusHeld(p, init);
      if Accepts(After(p, init), f) {
        FillConserves(After(p, init), f);
      }
    }
  }

  /** So a position closed by its fills has realized exactly its cash flow, and at any price realized
      plus unrealized profit is what liquidating at that price would leave. */
  lemma {:induction false} MarkToMarket(p: Position, fills: seq<Fill>, price: real)
    requires Registrable(p) && p.realized == 0.0 && !p.closed
    ensures var q := After(p, fills);
      && q.realized + Unrealized(q, price) == CashFlow(p, fills) + HeldAt(q, price)
      && (q.closed ==> q.quantity == 0.0 && q.realized == CashFlow(p, fills))
  {
    RealizedIsCashPlusHeld(p, fills);
    ClosedIsEmpty(p, fills);
    var q := After(p, fills);
    assert Value(price - q.entry, q.quantity) == Value(price, q.quantity) - Value(q.entry, q.quantity);
    assert Value(q.entry - price, q.quantity) == Value(q.entry, q.quantity) - Value(price, q.quantity);
  }

  lemma {:induction false} ClosedIsEmpty(p: Position, fills: seq<Fill>)
    requires !p.closed
    ensures After(p, fills).closed ==> After(p, fills).quantity == 0.0
  {
    if fills != [] {
      ClosedIsEmpty(p, fills[..|fills|-1]);
    }
  }

  /** The opening prices of a position: its registration and its accepted opening fills. */
  ghost predicate OpeningPrices(p: Position, fills: seq<Fill>, low: real, high: real) {
    && low <= p.entry <= high
    && forall f <- fills :: f.quantity > 0.0 && (Opens(p, f.side) ==> low <= f.price <= high)
  }

  lemma QuotientBetween(total: real, d: real, low: real, high: real)
    requires d > 0.0 && low * d <= total <= high * d
    ensures low <= total / d <= high
  {
    var q := total / d;
    assert q * d == total;
    if q < low {
      MulLt(q, low, d);
    }
    if q > high {
      MulLt(high, q, d);
    }
  }

  lemma WeightedBelow(a: real, m: real, b: real, n: real, high: real)
    requires m >= 0.0 && n >= 0.0 && a <= high && b <= high
    ensures Value(a, m) + Value(b, n) <= high * (m + n)
  {
    MulLe(a, high, m);
    MulLe(b, high, n);
    assert a * m <= high * m && b * n <= high * n;
    assert high * (m + n) == high * m + high * n;
  }

  lemma WeightedAbove(a: real, m: real, b: real, n: real, low: real)
    requires m >= 0.0 && n >= 0.0 && low <= a && low <= b
    ensures low * (m + n) <= Value(a, m) + Value(b, n)
  {
    MulLe(low, a, m);
    MulLe(low, b, n);
    assert low * m <= a * m && low * n <= b * n;
    assert low * (m + n) == low * m + low * n;
  }

  lemma AverageBetween(a: real, m: real, b: real, n: real, low: real, high: real)
    requires m >= 0.0 && n > 0.0 && low <= a <= high && low <= b <= high
    ensures low <= (Value(a, m) + Value(b, n)) / (m + n) <= high
  {
    WeightedAbove(a, m, b, n, low);
    WeightedBelow(a, m, b, n, high);
    QuotientBetween(Value(a, m) + Value(b, n), m + n, low, high);
  }

  /** The entry price never leaves the range of the opening prices. */
  lemma {:induction false} EntryWithinOpeningPrices(p: Position, fills: seq<Fill>, low: real, high: real)
    requires Registrable(p) && !p.closed && OpeningPrices(p, fills, low, high)
    ensures low <= After(p, fills).entry <= high && After(p, fills).quantity >= 0.0 && After(p, fills).side == p.side
  {
    if fills != [] {
      var init, f := fills[..|fills|-1], fills[|fills|-1];
      assert f in fills && forall g <- init :: g in fills;
      EntryWithinOpeningPrices(p, init, low, high);
      var q := After(p, init);
      if Accepts(q, f) && Opens(q, f.side) {
        AverageBetween(q.entry, q.quantity, f.price, f.quantity, low, high);
      }
    }
  }
}
