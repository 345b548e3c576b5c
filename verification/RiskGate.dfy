/** The gate in front of order execution (manager.py): five rules, their counters, and what the gate
    bounds over whole runs of a portfolio. */
module RiskGate {
  import opened Options
  import opened RealMath
  import opened Portfolio
  import opened Exposure

  datatype Limits = Limits(perSymbol: real, perExchange: real, maxOpen: int, maxSize: real, perInstance: real)

  const DEFAULT_LIMITS := Limits(100000.0, 500000.0, 20, 50000.0, 100000.0)

  datatype Order = Order(
    instance: string, account: string, exchange: string, symbol: string, side: string, quantity: real, price: real)

  datatype Rule = PositionSize | InstanceCapital | SymbolExposure | ExchangeExposure | OpenPositions

  datatype Verdict = Allowed(exposure: real, limit: real) | Denied(rule: Rule, exposure: real, limit: real)

  /** `{**prices, symbol: price}`: the gate values the whole symbol at the order's own price. */
  function Repriced(prices: map<string, real>, o: Order): map<string, real> { prices[o.symbol := o.price] }

  /** What the symbol (or exchange) of an order would be exposed to, as the gate reckons it. */
  function Reckoned(ps: seq<Position>, d: Dimension, k: string, prices: map<string, real>, o: Order): real {
    SumFor(ps, d, k, Notional(Repriced(prices, o))) + Value(o.price, o.quantity)
  }

  function Judge(l: Limits, capital: real, prices: map<string, real>, ps: seq<Position>, o: Order): Verdict {
    var size := Value(o.price, o.quantity);
    var symbol := Reckoned(ps, BySymbol, o.symbol, prices, o);
    var exchange := Reckoned(ps, ByExchange, o.exchange, prices, o);
    if size > l.maxSize then Denied(PositionSize, size, l.maxSize)
    else if capital > 0.0 && capital > l.perInstance then Denied(InstanceCapital, capital, l.perInstance)
    else if symbol > l.perSymbol then Denied(SymbolExposure, symbol, l.perSymbol)
    else if exchange > l.perExchange then Denied(ExchangeExposure, exchange, l.perExchange)
    else if IndexOf(ps, o.instance) == |ps| && |ps| >= l.maxOpen then
      Denied(OpenPositions, |ps| as real, l.maxOpen as real)
    else Allowed(symbol, l.perSymbol)
  }

  datatype Metrics = Metrics(checked: nat, allowed: nat, denied: nat, priceUpdates: nat)

  const NO_METRICS := Metrics(0, 0, 0, 0)

  /** A call that touches the counters of its user, which start at zero. */
  datatype Call = SettingLimits(user: string) | PricingFor(user: string) | Checking(user: string, allowed: bool)

  function Called(metrics: map<string, Metrics>, c: Call): map<string, Metrics> {
    var m := Get(metrics, c.user, NO_METRICS);
    match c
    case SettingLimits(user) => metrics[user := m]
    case PricingFor(user) =>
      if user in metrics then metrics[user := m.(priceUpdates := m.priceUpdates + 1)] else metrics
    case Checking(user, true) => metrics[user := m.(checked := m.checked + 1, allowed := m.allowed + 1)]
    case Checking(user, false) => metrics[user := m.(checked := m.checked + 1, denied := m.denied + 1)]
  }

  function AfterCalls(calls: seq<Call>): map<string, Metrics> {
    if calls == [] then map[] else Called(AfterCalls(calls[..|calls|-1]), calls[|calls|-1])
  }

  function Checks(calls: seq<Call>, user: string, allowed: bool): nat {
    if calls == [] then 0
    else Checks(calls[..|calls|-1], user, allowed) + if calls[|calls|-1] == Checking(user, allowed) then 1 else 0
  }

  /** After any run of calls, `orders_checked` is `orders_allowed` plus `orders_denied` for every user, and
      each of the two is the number of that user's checks with that outcome. */
  lemma {:induction false} CountersBalance(calls: seq<Call>, user: string)
    ensures var m := Get(AfterCalls(calls), user, NO_METRICS);
      m.checked == m.allowed + m.denied && m.allowed == Checks(calls, user, true)
        && m.denied == Checks(calls, user, false)
  {
    if calls != [] {
      CountersBalance(calls[..|calls|-1], user);
    }
  }

  /** A user is judged by these limits until others are set. */
  lemma DefaultLimits()
    ensures DEFAULT_LIMITS.perSymbol == 100000.0 && DEFAULT_LIMITS.perExchange == 500000.0
    ensures DEFAULT_LIMITS.maxOpen == 20 && DEFAULT_LIMITS.maxSize == 50000.0 && DEFAULT_LIMITS.perInstance == 100000.0
  {
  }

  /** The prices that came in for a user since the first call that gave the user counters. */
  function Pricings(calls: seq<Call>, user: string): nat {
    if calls == [] then 0
    else
      var before, last := calls[..|calls|-1], calls[|calls|-1];
      Pricings(before, user) + if last == PricingFor(user) && Known(before, user) then 1 else 0
  }

  predicate Known(calls: seq<Call>, user: string) {
    exists c <- calls :: c == SettingLimits(user) || c == Checking(user, true) || c == Checking(user, false)
  }

  lemma {:induction false} KnownSince(before: seq<Call>, last: Call, user: string)
    ensures Known(before + [last], user) <==>
      || Known(before, user)
      || last == SettingLimits(user) || last == Checking(user, true) || last == Checking(user, false)
  {
    if Known(before, user) {
      var c :| c in before && (c == SettingLimits(user) || c == Checking(user, true) || c == Checking(user, false));
      assert c in before + [last];
    }
    assert last in before + [last];
  }

  /** A price is counted for a user exactly if limits were set for that user or an order was checked before. */
  lemma {:induction false} PricingsCounted(calls: seq<Call>, user: string)
    ensures user in AfterCalls(calls) <==> Known(calls, user)
    ensures Get(AfterCalls(calls), user, NO_METRICS).priceUpdates == Pricings(calls, user)
  {
    if calls != [] {
      var before, last := calls[..|calls|-1], calls[|calls|-1];
      PricingsCounted(before, user);
      KnownSince(before, last, user);
      assert calls == before + [last];
    }
  }

  function Get<V>(m: map<string, V>, k: string, default: V): V { if k in m then m[k] else default }

  /** `get_exposure_by_…(positions, prices).get(k, 0)`. */
  method ExposureOf(d: Dimension, k: string, ps: seq<Position>, prices: map<string, real>) returns (exposure: real)
    ensures exposure == SumFor(ps, d, k, Notional(prices))
  {
    var byKey := ExposureBy(d, ps, prices);
    if k in byKey {
      return byKey[k];
    }
    NoneWithKey(ps, d, k, Notional(prices));
    return 0.0;
  }

  /** `RiskManager`. */
  class RiskManager {
    const portfolio: PortfolioManager
    var limits: map<string, Limits>
    var prices: map<string, real>
    var capital: map<string, real>
    var metrics: map<string, Metrics>

    constructor (portfolio: PortfolioManager)
      ensures this.portfolio == portfolio && limits == map[] && prices == map[] && capital == map[] && metrics == map[]
    {
      this.portfolio := portfolio;
      limits, prices, capital, metrics := map[], map[], map[], map[];
    }

    method SetRiskParameters(user: string, l: Limits)
      modifies `limits, `metrics
      ensures limits == old(limits)[user := l]
      ensures metrics == Called(old(metrics), SettingLimits(user))
    {
      limits := limits[user := l];
      metrics := metrics[user := Get(metrics, user, NO_METRICS)];
    }

    method SetInstanceCapital(instance: string, amount: real)
      modifies `capital
      ensures capital == old(capital)[instance := amount]
    {
      capital := capital[instance := amount];
    }

    method OnPriceUpdate(user: string, symbol: string, price: real)
      modifies `prices, `metrics
      ensures prices == old(prices)[symbol := price]
      ensures metrics == Called(old(metrics), PricingFor(user))
    {
      prices := prices[symbol := price];
      if user in metrics {
        metrics := metrics[user := metrics[user].(priceUpdates := metrics[user].priceUpdates + 1)];
      }
    }

    /** The two increments of one check: `orders_checked` and its outcome. */
    method Record(user: string, allowed: bool)
      modifies `metrics
      ensures metrics == Called(old(metrics), Checking(user, allowed))
    {
      var m := Get(metrics, user, NO_METRICS);
      m := m.(checked := m.checked + 1);
      metrics := metrics[user := if allowed then m.(allowed := m.allowed + 1) else m.(denied := m.denied + 1)];
    }

    method CheckOrderRisk(o: Order, user: string) returns (v: Verdict)
      modifies `metrics
      ensures v
        == Judge(Get(limits, user, DEFAULT_LIMITS), Get(capital, o.instance, 0.0), prices, portfolio.positions, o)
      ensures metrics == Called(old(metrics), Checking(user, v.Allowed?))
    {
      var l := Get(limits, user, DEFAULT_LIMITS);
      var notional := Value(o.price, o.quantity);
      if notional > l.maxSize {
        Record(user, false);
        return Denied(PositionSize, notional, l.maxSize);
      }
      var held := Get(capital, o.instance, 0.0);
      if held > 0.0 && held > l.perInstance {
        Record(user, false);
        return Denied(InstanceCapital, held, l.perInstance);
      }
      var ps := portfolio.positions;
      var current := prices[o.symbol := o.price];
      var symbolExposure := ExposureOf(BySymbol, o.symbol, ps, current);
      symbolExposure := symbolExposure + notional;
      if symbolExposure > l.perSymbol {
        Record(user, false);
        return Denied(SymbolExposure, symbolExposure, l.perSymbol);
      }
      var exchangeExposure := ExposureOf(ByExchange, o.exchange, ps, current);
      exchangeExposure := exchangeExposure + notional;
      if exchangeExposure > l.perExchange {
        Record(user, false);
        return Denied(ExchangeExposure, exchangeExposure, l.perExchange);
      }
      var existing := portfolio.GetPosition(o.instance);
      if existing == |ps| && |ps| >= l.maxOpen {
        Record(user, false);
        return Denied(OpenPositions, |ps| as real, l.maxOpen as real);
      }
      Record(user, true);
      return Allowed(symbolExposure, l.perSymbol);
    }
  }

  // ------------------------------------------------------------------ the five rules

  /** The rules in the order in which they are asked. */
  const RULES := [PositionSize, InstanceCapital, SymbolExposure, ExchangeExposure, OpenPositions]

  /** What an order of this notional value, joining a book with these exposures, must not be. */
  predicate Breaks(r: Rule, l: Limits, capital: real, notional: real, symbol: real, exchange: real, ps: seq<Position>,
      o: Order)
  {
    match r
    case PositionSize => notional > l.maxSize
    case InstanceCapital => capital > 0.0 && capital > l.perInstance
    case SymbolExposure => symbol + notional > l.perSymbol
    case ExchangeExposure => exchange + notional > l.perExchange
    case OpenPositions => |ps| >= l.maxOpen && forall p <- ps :: p.instance != o.instance
  }

  /** The figures a verdict comes with. */
  predicate Figures(v: Verdict, l: Limits, capital: real, notional: real, symbol: real, exchange: real, n: nat) {
    match v
    case Allowed(exposure, limit) => exposure == symbol + notional && limit == l.perSymbol
    case Denied(PositionSize, exposure, limit) => exposure == notional && limit == l.maxSize
    case Denied(InstanceCapital, exposure, limit) => exposure == capital && limit == l.perInstance
    case Denied(SymbolExposure, exposure, limit) => exposure == symbol + notional && limit == l.perSymbol
    case Denied(ExchangeExposure, exposure, limit) => exposure == exchange + notional && limit == l.perExchange
    case Denied(OpenPositions, exposure, limit) => exposure == n as real && limit == l.maxOpen as real
  }

  /** The first `i` rules are kept. */
  ghost predicate Kept(i: nat, l: Limits, capital: real, notional: real, symbol: real, exchange: real,
      ps: seq<Position>, o: Order)
  {
    forall j | 0 <= j < i && j < |RULES| :: !Breaks(RULES[j], l, capital, notional, symbol, exchange, ps, o)
  }

  /** With the symbol and the exchange valued at the order's own price: an order is allowed exactly if it breaks
      none of the rules, and a denial names the first that it breaks; either with the figures of that rule. */
  lemma {:induction false} AllowedIff(l: Limits, capital: real, prices: map<string, real>, ps: seq<Position>, o: Order)
    ensures var v, notional := Judge(l, capital, prices, ps, o), Value(o.price, o.quantity);
      var symbol := SumFor(ps, BySymbol, o.symbol, Notional(prices[o.symbol := o.price]));
      var exchange := SumFor(ps, ByExchange, o.exchange, Notional(prices[o.symbol := o.price]));
      && (v.Allowed? <==> Kept(5, l, capital, notional, symbol, exchange, ps, o))
      && (v.Denied? ==>
            && Breaks(v.rule, l, capital, notional, symbol, exchange, ps, o)
            && exists i :: 0 <= i < |RULES| && RULES[i] == v.rule
                        && Kept(i, l, capital, notional, symbol, exchange, ps, o))
      && Figures(v, l, capital, notional, symbol, exchange, |ps|)
  {
    StoredIff(ps, o.instance);
    var repriced := prices[o.symbol := o.price];
    RulesInOrder(l, capital, Value(o.price, o.quantity), SumFor(ps, BySymbol, o.symbol, Notional(repriced)),
                 SumFor(ps, ByExchange, o.exchange, Notional(repriced)), ps, o, Judge(l, capital, prices, ps, o));
  }

  /** The verdict of the rules, asked one after the other. */
  lemma RulesInOrder(l: Limits, capital: real, notional: real, symbol: real, exchange: real, ps: seq<Position>,
      o: Order, v: Verdict)
    requires v ==
      if Breaks(PositionSize, l, capital, notional, symbol, exchange, ps, o)
      then Denied(PositionSize, notional, l.maxSize)
      else if Breaks(InstanceCapital, l, capital, notional, symbol, exchange, ps, o)
      then Denied(InstanceCapital, capital, l.perInstance)
      else if Breaks(SymbolExposure, l, capital, notional, symbol, exchange, ps, o)
      then Denied(SymbolExposure, symbol + notional, l.perSymbol)
      else if Breaks(ExchangeExposure, l, capital, notional, symbol, exchange, ps, o)
      then Denied(ExchangeExposure, exchange + notional, l.perExchange)
      else if Breaks(OpenPositions, l, capital, notional, symbol, exchange, ps, o)
      then Denied(OpenPositions, |ps| as real, l.maxOpen as real)
      else Allowed(symbol + notional, l.perSymbol)
    ensures v.Allowed? <==> Kept(5, l, capital, notional, symbol, exchange, ps, o)
    ensures v.Denied? ==>
      && Breaks(v.rule, l, capital, notional, symbol, exchange, ps, o)
      && exists i :: 0 <= i < |RULES| && RULES[i] == v.rule
                  && Kept(i, l, capital, notional, symbol, exchange, ps, o)
    ensures Figures(v, l, capital, notional, symbol, exchange, |ps|)
  {
    assert |RULES| == 5 && RULES[0] == PositionSize && RULES[1] == InstanceCapital && RULES[2] == SymbolExposure;
    assert RULES[3] == ExchangeExposure && RULES[4] == OpenPositions;
    if v.Denied? {
      var i := if v.rule == PositionSize then 0 else if v.rule == InstanceCapital then 1
               else if v.rule == SymbolExposure then 2 else if v.rule == ExchangeExposure then 3 else 4;
      assert RULES[i] == v.rule;
    }
  }

  lemma {:induction false} StoredIff(ps: seq<Position>, instance: string)
    ensures IndexOf(ps, instance) < |ps| <==> exists p <- ps :: p.instance == instance
  {
    if IndexOf(ps, instance) < |ps| {
      assert ps[IndexOf(ps, instance)] in ps;
    }
  }

  // ------------------------------------------------------------------ sums after a change

  function Share(p: Position, d: Dimension, k: string, m: Measure): real {
    if p.closed || KeyOf(d, p) != k then 0.0 else Weigh(m, p)
  }

  lemma {:induction false} SumForConcat(a: seq<Position>, b: seq<Position>, d: Dimension, k: string, m: Measure)
    ensures SumFor(a + b, d, k, m) == SumFor(a, d, k, m) + SumFor(b, d, k, m)
  {
    if b == [] {
      assert a + b == a;
    } else {
      assert (a + b)[..|a + b|-1] == a + b[..|b|-1];
      SumForConcat(a, b[..|b|-1], d, k, m);
    }
  }

  lemma {:induction false} SumForSplit(ps: seq<Position>, i: nat, d: Dimension, k: string, m: Measure)
    requires i < |ps|
    ensures SumFor(ps, d, k, m) == SumFor(ps[..i] + ps[i + 1..], d, k, m) + Share(ps[i], d, k, m)
  {
    SumForConcat(ps[..i], ps[i + 1..], d, k, m);
    SumForConcat(ps[..i], [ps[i]], d, k, m);
    SumForConcat(ps[..i] + [ps[i]], ps[i + 1..], d, k, m);
    assert ps[..i] + [ps[i]] + ps[i + 1..] == ps;
  }

  lemma SumForReplaced(ps: seq<Position>, i: nat, p: Position, d: Dimension, k: string, m: Measure)
    requires i < |ps|
    ensures SumFor(ps[i := p], d, k, m) == SumFor(ps, d, k, m) - Share(ps[i], d, k, m) + Share(p, d, k, m)
  {
    SumForSplit(ps, i, d, k, m);
    SumForSplit(ps[i := p], i, d, k, m);
    assert ps[i := p][..i] + ps[i := p][i + 1..] == ps[..i] + ps[i + 1..];
  }

  // ------------------------------------------------------------------ what the gate bounds

  predicate Solid(p: Position) { !p.closed ==> p.quantity >= 0.0 && p.entry > 0.0 }

  ghost predicate AllSolid(ps: seq<Position>) { forall p <- ps :: Solid(p) }

  /** What is open in the symbol of the order on its exchange. */
  function Shared(ps: seq<Position>, o: Order, m: Measure): real {
    if ps == [] then 0.0
    else
      var last := ps[|ps|-1];
      Shared(ps[..|ps|-1], o, m)
      + if last.closed || last.exchange != o.exchange || last.symbol != o.symbol then 0.0 else Weigh(m, last)
  }

  /** The order is priced no lower than the last known price of its symbol or, where none is known, than the
      average entry of what is open in the symbol, and of what is open in it on the order's exchange. */
  predicate Covers(ps: seq<Position>, prices: map<string, real>, o: Order) {
    if o.symbol in prices then prices[o.symbol] <= o.price
    else
      && SumFor(ps, BySymbol, o.symbol, Cost) <= Value(o.price, SumFor(ps, BySymbol, o.symbol, Quantity))
      && Shared(ps, o, Cost) <= Value(o.price, Shared(ps, o, Quantity))
  }

  /** Valuing a symbol at a covering price lowers neither its exposure nor that of the order's exchange. */
  lemma {:induction false} RepricingRaises(ps: seq<Position>, prices: map<string, real>, o: Order)
    requires AllSolid(ps) && Covers(ps, prices, o)
    ensures SumFor(ps, BySymbol, o.symbol, Notional(prices))
      <= SumFor(ps, BySymbol, o.symbol, Notional(Repriced(prices, o)))
    ensures SumFor(ps, ByExchange, o.exchange, Notional(prices))
         <= SumFor(ps, ByExchange, o.exchange, Notional(Repriced(prices, o)))
  {
    SymbolAtOnePrice(ps, o.symbol, Repriced(prices, o));
    SharedAtOnePrice(ps, Repriced(prices, o), o);
    RepricingMovesShared(ps, prices, o);
    if o.symbol in prices {
      SymbolAtOnePrice(ps, o.symbol, prices);
      SharedAtOnePrice(ps, prices, o);
      HoldingIsNotNegative(ps, BySymbol, o.symbol);
      SharedIsNotNegative(ps, o);
      HigherPriceWeighsMore(prices[o.symbol], o.price, SumFor(ps, BySymbol, o.symbol, Quantity));
      HigherPriceWeighsMore(prices[o.symbol], o.price, Shared(ps, o, Quantity));
    } else {
      SymbolAtCost(ps, o.symbol, prices);
      SharedAtCost(ps, prices, o);
    }
  }

  lemma HigherPriceWeighsMore(low: real, high: real, quantity: real)
    requires low <= high && quantity >= 0.0
    ensures Value(low, quantity) <= Value(high, quantity)
  {
    MulLe(low, high, quantity);
  }

  /** Every symbol, every exchange and the number of stored positions are within the limits, under the
      manager's own prices. */
  ghost predicate Within(b: Book, prices: map<string, real>, l: Limits) {
    && (forall k: string :: SumFor(b.positions, BySymbol, k, Notional(prices)) <= l.perSymbol)
    && (forall k: string :: SumFor(b.positions, ByExchange, k, Notional(prices)) <= l.perExchange)
    && |b.positions| <= l.maxOpen
  }

  function AsPosition(o: Order): Position {
    Opened(o.instance, o.account, o.exchange, o.symbol, o.side, o.price, o.quantity)
  }

  datatype Action =
    | Open(order: Order)                          // check_order_risk, then register_position
    | Grow(order: Order, price: real)             // check_order_risk, then an opening fill of that order
    | Shrink(instance: string, fill: Fill)        // a closing fill
    | Close(instance: string)                     // close_position

  function Act(b: Book, a: Action): Book {
    match a
    case Open(o) => Registered(b, AsPosition(o))
    case Grow(o, price) => Updated(b, o.instance, Fill(price, o.quantity, o.side))
    case Shrink(instance, f) => Updated(b, instance, f)
    case Close(instance) => Closed(b, instance)
  }

  /** Everything that adds exposure was allowed by the gate beforehand, at a covering price. */
  ghost predicate Gated(b: Book, prices: map<string, real>, l: Limits, capital: map<string, real>, a: Action) {
    var ps := b.positions;
    match a
    case Open(o) => Judge(l, Get(capital, o.instance, 0.0), prices, ps, o).Allowed? && Covers(ps, prices, o)
    case Grow(o, price) =>
      && Judge(l, Get(capital, o.instance, 0.0), prices, ps, o).Allowed? && Covers(ps, prices, o)
      && o.quantity >= 0.0 && 0.0 < price && (o.symbol !in prices ==> price <= o.price)
      && var i := IndexOf(ps, o.instance);
         i < |ps| ==> ps[i].symbol == o.symbol && ps[i].exchange == o.exchange && Opens(ps[i], o.side)
    case Shrink(instance, f) =>
      f.quantity >= 0.0 && var i := IndexOf(ps, instance); i < |ps| ==> !Opens(ps[i], f.side)
    case Close(_) => true
  }

  /** Registering an allowed order adds its notional at most. */
  lemma OpenStaysWithin(b: Book, prices: map<string, real>, l: Limits, capital: map<string, real>, o: Order)
    requires Within(b, prices, l) && AllSolid(b.positions) && Gated(b, prices, l, capital, Open(o))
    ensures Within(Act(b, Open(o)), prices, l) && AllSolid(Act(b, Open(o)).positions)
  {
    var ps, p, m := b.positions, AsPosition(o), Notional(prices);
    if Act(b, Open(o)) != b {
      HigherPriceWeighsMore(PriceOf(p, prices), o.price, o.quantity);
      RepricingRaises(ps, prices, o);
      forall k: string ensures SumFor(ps + [p], BySymbol, k, m) <= l.perSymbol {
        SumForGrows(ps, p, BySymbol, k, m);
      }
      forall k: string ensures SumFor(ps + [p], ByExchange, k, m) <= l.perExchange {
        SumForGrows(ps, p, ByExchange, k, m);
      }
    }
  }

  /** Replacing a position by one that weighs no more stays within every limit. */
  lemma LighterStaysWithin(b: Book, i: nat, p: Position, prices: map<string, real>, l: Limits)
    requires Within(b, prices, l) && AllSolid(b.positions) && i < |b.positions| && Solid(p)
    requires p.symbol == b.positions[i].symbol && p.exchange == b.positions[i].exchange
    requires forall k: string, d: Dimension ::
      Share(p, d, k, Notional(prices)) <= Share(b.positions[i], d, k, Notional(prices))
                                               || d == ByAccount
    ensures Within(b.(positions := b.positions[i := p]), prices, l) && AllSolid(b.positions[i := p])
  {
    var ps, m := b.positions, Notional(prices);
    var replaced := ps[i := p];
    forall k: string ensures SumFor(replaced, BySymbol, k, m) <= l.perSymbol {
      SumForReplaced(ps, i, p, BySymbol, k, m);
      assert Share(p, BySymbol, k, m) <= Share(ps[i], BySymbol, k, m);
    }
    forall k: string ensures SumFor(replaced, ByExchange, k, m) <= l.perExchange {
      SumForReplaced(ps, i, p, ByExchange, k, m);
      assert Share(p, ByExchange, k, m) <= Share(ps[i], ByExchange, k, m);
    }
    forall q <- ps[i := p] ensures Solid(q) {
      assert q == p || q in ps;
    }
  }

  ghost predicate NonNegative(prices: map<string, real>) { forall s <- prices :: prices[s] >= 0.0 }

  lemma LessWeighsLess(price: real, less: real, more: real)
    requires price >= 0.0 && less <= more
    ensures Value(price, less) <= Value(price, more)
  {
    MulLe(less, more, price);
    assert less * price == price * less && more * price == price * more;
  }

  lemma ShrinkStaysWithin(b: Book, prices: map<string, real>, l: Limits, instance: string, f: Fill)
    requires Within(b, prices, l) && AllSolid(b.positions) && NonNegative(prices)
    requires Gated(b, prices, l, map[], Shrink(instance, f))
    ensures Within(Updated(b, instance, f), prices, l) && AllSolid(Updated(b, instance, f).positions)
  {
    var i := IndexOf(b.positions, instance);
    if i < |b.positions| {
      var p := b.positions[i];
      var p' := Filled(p, f);
      if Accepts(p, f) {
        assert p in b.positions && Solid(p);
        LessWeighsLess(PriceOf(p, prices), p'.quantity, p.quantity);
        LighterStaysWithin(b, i, p', prices, l);
      } else {
        assert b.positions[i := p'] == b.positions;
      }
    }
  }

  /** An opening fill adds to a position's weight at most what the order is worth at its own price. */
  lemma GrownWeight(p: Position, prices: map<string, real>, o: Order, price: real)
    requires Solid(p) && p.symbol == o.symbol && Opens(p, o.side) && o.quantity >= 0.0 && price > 0.0
    requires if o.symbol in prices then prices[o.symbol] <= o.price else price <= o.price
    requires Accepts(p, Fill(price, o.quantity, o.side))
    ensures var p' := Filled(p, Fill(price, o.quantity, o.side));
      && Weigh(Notional(prices), p') <= Weigh(Notional(prices), p) + Value(o.price, o.quantity)
      && Solid(p') && !p'.closed && p'.symbol == p.symbol && p'.exchange == p.exchange
  {
    var q, n := p.quantity, o.quantity;
    if q + n > 0.0 {
      QuotientTimes(Value(p.entry, q) + Value(price, n), q + n);
      AveragePositive(p.entry, q, price, n);
    }
    if o.symbol in prices {
      ValuesAdd(prices[o.symbol], q, n);
      HigherPriceWeighsMore(prices[o.symbol], o.price, n);
    } else {
      AtAverage(Value(p.entry, q) + Value(price, n), q + n);
      HigherPriceWeighsMore(price, o.price, n);
    }
  }

  lemma AtAverage(cost: real, quantity: real)
    requires quantity != 0.0
    ensures Value(cost / quantity, quantity) == cost
  {
    QuotientTimes(cost, quantity);
  }

  lemma AveragePositive(a: real, m: real, b: real, n: real)
    requires a > 0.0 && b > 0.0 && m >= 0.0 && n >= 0.0 && m + n > 0.0
    ensures (Value(a, m) + Value(b, n)) / (m + n) > 0.0
  {
    var low, high := Min(a, b), Max(a, b);
    WeightedAbove(a, m, b, n, low);
    WeightedBelow(a, m, b, n, high);
    QuotientBetween(Value(a, m) + Value(b, n), m + n, low, high);
    assert low > 0.0;
  }

  lemma GrowStaysWithin(b: Book, prices: map<string, real>, l: Limits, capital: map<string, real>, o: Order,
      price: real)
    requires Within(b, prices, l) && AllSolid(b.positions) && Gated(b, prices, l, capital, Grow(o, price))
    ensures Within(Act(b, Grow(o, price)), prices, l) && AllSolid(Act(b, Grow(o, price)).positions)
  {
    var ps, m, f := b.positions, Notional(prices), Fill(price, o.quantity, o.side);
    var i := IndexOf(ps, o.instance);
    if i < |ps| {
      var p := ps[i];
      var p' := Filled(p, f);
      if Accepts(p, f) {
        assert p in ps && Solid(p);
        GrownWeight(p, prices, o, price);
        RepricingRaises(ps, prices, o);
        var grown := ps[i := p'];
        forall k: string ensures SumFor(grown, BySymbol, k, m) <= l.perSymbol {
          GrownSum(ps, i, p', BySymbol, k, prices, Value(o.price, o.quantity));
        }
        forall k: string ensures SumFor(grown, ByExchange, k, m) <= l.perExchange {
          GrownSum(ps, i, p', ByExchange, k, prices, Value(o.price, o.quantity));
        }
        forall q <- ps[i := p'] ensures Solid(q) {
          assert q == p' || q in ps;
        }
      } else {
        assert ps[i := p'] == ps;
      }
    }
  }

  lemma GrownSum(ps: seq<Position>, i: nat, p': Position, d: Dimension, k: string, prices: map<string, real>,
      added: real)
    requires i < |ps| && !ps[i].closed && !p'.closed && KeyOf(d, p') == KeyOf(d, ps[i])
    requires Weigh(Notional(prices), p') <= Weigh(Notional(prices), ps[i]) + added
    ensures SumFor(ps[i := p'], d, k, Notional(prices))
         <= SumFor(ps, d, k, Notional(prices)) + if k == KeyOf(d, ps[i]) then added else 0.0
  {
    SumForReplaced(ps, i, p', d, k, Notional(prices));
  }

  /** Without one of its positions no sum grows. */
  lemma RestSumsToLess(ps: seq<Position>, i: nat, rest: seq<Position>, d: Dimension, prices: map<string, real>,
      limit: real)
    requires AllSolid(ps) && NonNegative(prices) && i < |ps| && rest == ps[..i] + ps[i + 1..]
    requires forall k: string :: SumFor(ps, d, k, Notional(prices)) <= limit
    ensures forall k: string :: SumFor(rest, d, k, Notional(prices)) <= limit
  {
    assert ps[i] in ps && Solid(ps[i]);
    if !ps[i].closed {
      MulNonNegative(PriceOf(ps[i], prices), ps[i].quantity);
    }
    forall k: string ensures SumFor(rest, d, k, Notional(prices)) <= limit {
      SumForSplit(ps, i, d, k, Notional(prices));
    }
  }

  lemma CloseStaysWithin(b: Book, prices: map<string, real>, l: Limits, instance: string)
    requires Within(b, prices, l) && AllSolid(b.positions) && NonNegative(prices)
    ensures Within(Closed(b, instance), prices, l) && AllSolid(Closed(b, instance).positions)
  {
    var ps, i := b.positions, IndexOf(b.positions, instance);
    if i < |ps| {
      var rest := ps[..i] + ps[i + 1..];
      RestSumsToLess(ps, i, rest, BySymbol, prices, l.perSymbol);
      RestSumsToLess(ps, i, rest, ByExchange, prices, l.perExchange);
      assert forall p <- rest :: p in ps;
    }
  }

  function AfterAll(b: Book, actions: seq<Action>): Book {
    if actions == [] then b else Act(AfterAll(b, actions[..|actions|-1]), actions[|actions|-1])
  }

  ghost predicate AllGated(b: Book, prices: map<string, real>, l: Limits, capital: map<string, real>,
      actions: seq<Action>)
  {
    actions == [] ||
    var init := actions[..|actions|-1];
    AllGated(b, prices, l, capital, init) && Gated(AfterAll(b, init), prices, l, capital, actions[|actions|-1])
  }

  /** Safety over whole runs: while prices and limits stand, a portfolio that starts empty and opens or
      grows positions only through the gate never exceeds a symbol limit, an exchange limit or the number
      of positions, whatever closing fills and closes come in between. */
  lemma {:induction false} RunStaysWithin(prices: map<string, real>, l: Limits, capital: map<string, real>,
      actions: seq<Action>)
    requires NonNegative(prices) && l.perSymbol >= 0.0 && l.perExchange >= 0.0 && l.maxOpen >= 0
    requires AllGated(Book([], []), prices, l, capital, actions)
    ensures Within(AfterAll(Book([], []), actions), prices, l) && AllSolid(AfterAll(Book([], []), actions).positions)
  {
    if actions != [] {
      var init, a := actions[..|actions|-1], actions[|actions|-1];
      RunStaysWithin(prices, l, capital, init);
      var b := AfterAll(Book([], []), init);
      match a
      case Open(o) => OpenStaysWithin(b, prices, l, capital, o);
      case Grow(o, price) => GrowStaysWithin(b, prices, l, capital, o, price);
      case Shrink(instance, f) => ShrinkStaysWithin(b, prices, l, instance, f);
      case Close(instance) => CloseStaysWithin(b, prices, l, instance);
    }
  }

  // ------------------------------------------------------------------ exactly when the gate bounds

  lemma {:induction false} SymbolAtOnePrice(ps: seq<Position>, s: string, prices: map<string, real>)
    requires s in prices
    ensures SumFor(ps, BySymbol, s, Notional(prices)) == Value(prices[s], SumFor(ps, BySymbol, s, Quantity))
  {
    if ps != [] {
      var last := ps[|ps|-1];
      SymbolAtOnePrice(ps[..|ps|-1], s, prices);
      var q := SumFor(ps[..|ps|-1], BySymbol, s, Quantity);
      assert Value(prices[s], q + last.quantity) == Value(prices[s], q) + Value(prices[s], last.quantity);
    }
  }

  lemma {:induction false} SymbolAtCost(ps: seq<Position>, s: string, prices: map<string, real>)
    requires s !in prices
    ensures SumFor(ps, BySymbol, s, Notional(prices)) == SumFor(ps, BySymbol, s, Cost)
  {
    if ps != [] {
      SymbolAtCost(ps[..|ps|-1], s, prices);
    }
  }

  lemma {:induction false} HoldingIsNotNegative(ps: seq<Position>, d: Dimension, k: string)
    requires AllSolid(ps)
    ensures SumFor(ps, d, k, Quantity) >= 0.0
  {
    if ps != [] {
      assert ps[|ps|-1] in ps && forall p <- ps[..|ps|-1] :: p in ps;
      HoldingIsNotNegative(ps[..|ps|-1], d, k);
    }
  }

  /** Whatever the limits, an order they allow leaves its symbol within them once it is registered. */
  ghost predicate GateBounds(ps: seq<Position>, prices: map<string, real>, o: Order) {
    forall l: Limits :: Judge(l, 0.0, prices, ps, o).Allowed? ==>
      SumFor(ps + [AsPosition(o)], BySymbol, o.symbol, Notional(prices)) <= l.perSymbol
  }

  /** The gate values a symbol at the order's price, the books at the last known one. So it bounds the
      symbol exactly when the order is priced no lower than the last known price or, where none is known,
      than the average entry of what is open in the symbol. */
  lemma {:induction false} GateBoundsIff(ps: seq<Position>, prices: map<string, real>, o: Order)
    requires AllSolid(ps) && Registrable(AsPosition(o))
    ensures GateBounds(ps, prices, o) <==>
      if o.symbol in prices then prices[o.symbol] <= o.price
      else SumFor(ps, BySymbol, o.symbol, Cost) <= Value(o.price, SumFor(ps, BySymbol, o.symbol, Quantity))
  {
    SymbolAtOnePrice(ps, o.symbol, Repriced(prices, o));
    SumForGrows(ps, AsPosition(o), BySymbol, o.symbol, Notional(prices));
    BoundsIffReckonedCovers(ps, prices, o);
    if o.symbol in prices {
      HoldingIsNotNegative(ps, BySymbol, o.symbol);
      SymbolAtOnePrice(ps, o.symbol, prices);
      CheaperIff(prices[o.symbol], o.price, SumFor(ps, BySymbol, o.symbol, Quantity), o.quantity);
    } else {
      SymbolAtCost(ps, o.symbol, prices);
    }
  }

  lemma CheaperIff(a: real, b: real, held: real, added: real)
    requires held >= 0.0 && added > 0.0
    ensures Value(a, held) + Value(a, added) <= Value(b, held) + Value(b, added) <==> a <= b
  {
    assert Value(a, held) + Value(a, added) == a * (held + added);
    assert Value(b, held) + Value(b, added) == b * (held + added);
    if a <= b {
      MulLe(a, b, held + added);
    } else {
      MulLt(b, a, held + added);
    }
  }

  /** The least limits that allow an order. */
  function TightLimits(ps: seq<Position>, prices: map<string, real>, o: Order): Limits {
    Limits(Reckoned(ps, BySymbol, o.symbol, prices, o), Reckoned(ps, ByExchange, o.exchange, prices, o),
           |ps| + 1, Value(o.price, o.quantity), 0.0)
  }

  lemma {:induction false} BoundsIffReckonedCovers(ps: seq<Position>, prices: map<string, real>, o: Order)
    ensures GateBounds(ps, prices, o) <==>
      SumFor(ps + [AsPosition(o)], BySymbol, o.symbol, Notional(prices)) <= Reckoned(ps, BySymbol, o.symbol, prices, o)
  {
    var tight := TightLimits(ps, prices, o);
    assert Judge(tight, 0.0, prices, ps, o).Allowed?;
  }

  /** Repricing moves the exposure of the exchange by what it moves of the shared positions. */
  lemma {:induction false} RepricingMovesShared(ps: seq<Position>, prices: map<string, real>, o: Order)
    ensures
      SumFor(ps, ByExchange, o.exchange, Notional(Repriced(prices, o)))
        - SumFor(ps, ByExchange, o.exchange, Notional(prices))
         == Shared(ps, o, Notional(Repriced(prices, o))) - Shared(ps, o, Notional(prices))
  {
    if ps != [] {
      RepricingMovesShared(ps[..|ps|-1], prices, o);
    }
  }

  lemma {:induction false} SharedAtOnePrice(ps: seq<Position>, prices: map<string, real>, o: Order)
    requires o.symbol in prices
    ensures Shared(ps, o, Notional(prices)) == Value(prices[o.symbol], Shared(ps, o, Quantity))
  {
    if ps != [] {
      SharedAtOnePrice(ps[..|ps|-1], prices, o);
      ValuesAdd(prices[o.symbol], Shared(ps[..|ps|-1], o, Quantity), ps[|ps|-1].quantity);
    }
  }

  lemma ValuesAdd(price: real, m: real, n: real)
    ensures Value(price, m + n) == Value(price, m) + Value(price, n)
  {
  }

  lemma {:induction false} SharedAtCost(ps: seq<Position>, prices: map<string, real>, o: Order)
    requires o.symbol !in prices
    ensures Shared(ps, o, Notional(prices)) == Shared(ps, o, Cost)
  {
    if ps != [] {
      SharedAtCost(ps[..|ps|-1], prices, o);
    }
  }

  lemma {:induction false} SharedIsNotNegative(ps: seq<Position>, o: Order)
    requires AllSolid(ps)
    ensures Shared(ps, o, Quantity) >= 0.0
  {
    if ps != [] {
      assert ps[|ps|-1] in ps && forall p <- ps[..|ps|-1] :: p in ps;
      SharedIsNotNegative(ps[..|ps|-1], o);
    }
  }

  /** Whatever the limits, an order they allow leaves its exchange within them once it is registered. */
  ghost predicate GateBoundsExchange(ps: seq<Position>, prices: map<string, real>, o: Order) {
    forall l: Limits :: Judge(l, 0.0, prices, ps, o).Allowed? ==>
      SumFor(ps + [AsPosition(o)], ByExchange, o.exchange, Notional(prices)) <= l.perExchange
  }

  /** It bounds the exchange exactly under the same condition, on what is open in the symbol there. */
  lemma {:induction false} GateBoundsExchangeIff(ps: seq<Position>, prices: map<string, real>, o: Order)
    requires AllSolid(ps) && Registrable(AsPosition(o))
    ensures GateBoundsExchange(ps, prices, o) <==>
      if o.symbol in prices then prices[o.symbol] <= o.price
      else Shared(ps, o, Cost) <= Value(o.price, Shared(ps, o, Quantity))
  {
    RepricingMovesShared(ps, prices, o);
    SharedAtOnePrice(ps, Repriced(prices, o), o);
    SumForGrows(ps, AsPosition(o), ByExchange, o.exchange, Notional(prices));
    BoundsExchangeIffReckonedCovers(ps, prices, o);
    if o.symbol in prices {
      SharedIsNotNegative(ps, o);
      SharedAtOnePrice(ps, prices, o);
      CheaperIff(prices[o.symbol], o.price, Shared(ps, o, Quantity), o.quantity);
    } else {
      SharedAtCost(ps, prices, o);
    }
  }

  lemma {:induction false} BoundsExchangeIffReckonedCovers(ps: seq<Position>, prices: map<string, real>, o: Order)
    ensures GateBoundsExchange(ps, prices, o) <==>
      SumFor(ps + [AsPosition(o)], ByExchange, o.exchange, Notional(prices))
        <= Reckoned(ps, ByExchange, o.exchange, prices, o)
  {
    var tight := TightLimits(ps, prices, o);
    assert Judge(tight, 0.0, prices, ps, o).Allowed?;
  }

  // ------------------------------------------------------------------ closed by fills, still counted

  function Fills(b: Book, fills: seq<(string, Fill)>): Book {
    if fills == [] then b else Updated(Fills(b, fills[..|fills|-1]), fills[|fills|-1].0, fills[|fills|-1].1)
  }

  ghost predicate SameInstances(a: seq<Position>, b: seq<Position>) {
    |a| == |b| && forall i | 0 <= i < |a| :: a[i].instance == b[i].instance
  }

  lemma FillKeepsInstances(b: Book, instance: string, f: Fill)
    ensures SameInstances(Updated(b, instance, f).positions, b.positions)
  {
  }

  lemma {:induction false} FullBookRefuses(ps: seq<Position>, l: Limits, capital: real, prices: map<string, real>,
      o: Order)
    requires |ps| >= l.maxOpen && IndexOf(ps, o.instance) == |ps|
    ensures Judge(l, capital, prices, ps, o).Denied?
  {
  }

  /** `get_open_position_count` counts what is stored: no run of fills, even one that closes everything,
      frees a place, so a full book goes on refusing every order of a new instance. */
  lemma {:induction false} FillsFreeNoPlace(b: Book, fills: seq<(string, Fill)>, l: Limits, capital: real,
      prices: map<string, real>, o: Order)
    requires |b.positions| >= l.maxOpen && forall p <- b.positions :: p.instance != o.instance
    ensures SameInstances(Fills(b, fills).positions, b.positions)
    ensures Judge(l, capital, prices, Fills(b, fills).positions, o).Denied?
  {
    if fills != [] {
      var before, last := Fills(b, fills[..|fills|-1]), fills[|fills|-1];
      FillsFreeNoPlace(b, fills[..|fills|-1], l, capital, prices, o);
      FillKeepsInstances(before, last.0, last.1);
    }
    var ps := Fills(b, fills).positions;
    assert forall i | 0 <= i < |ps| :: ps[i].instance == b.positions[i].instance && b.positions[i] in b.positions;
    FullBookRefuses(ps, l, capital, prices, o);
  }

  function OpenCount(ps: seq<Position>): nat {
    if ps == [] then 0 else OpenCount(ps[..|ps|-1]) + if ps[|ps|-1].closed then 0 else 1
  }

  lemma {:induction false} AllOpenIff(ps: seq<Position>)
    ensures OpenCount(ps) <= |ps| && (OpenCount(ps) == |ps| <==> forall p <- ps :: !p.closed)
  {
    if ps != [] {
      AllOpenIff(ps[..|ps|-1]);
      assert ps == ps[..|ps|-1] + [ps[|ps|-1]];
    }
  }

  /** Whenever an order is refused for the number of positions, that many are open. */
  ghost predicate RefusalsMeanFull(ps: seq<Position>, prices: map<string, real>, o: Order) {
    forall l: Limits, capital: real :: var v := Judge(l, capital, prices, ps, o);
      v.Denied? && v.rule == OpenPositions ==> OpenCount(ps) >= l.maxOpen
  }

  /** The rule means what its name says exactly while no stored position is closed. */
  lemma {:induction false} RefusalsMeanFullIff(ps: seq<Position>, prices: map<string, real>, o: Order)
    requires IndexOf(ps, o.instance) == |ps|
    ensures RefusalsMeanFull(ps, prices, o) <==> forall p <- ps :: !p.closed
  {
    AllOpenIff(ps);
    var full := TightLimits(ps, prices, o).(maxOpen := |ps|);
    assert Judge(full, 0.0, prices, ps, o) == Denied(OpenPositions, |ps| as real, |ps| as real);
  }

  // ------------------------------------------------------------------ examples

  const CHEAP := Order("i", "a", "x", "S", "long", 1.0, 50.0)

  /** An order at 50 in a symbol last seen at 100 passes a limit of 60 and takes the symbol and the exchange
      to 100. */
  lemma GateLetsThrough()
    ensures var l, prices := Limits(60.0, 60.0, 1, 60.0, 0.0), map["S" := 100.0];
      && Judge(l, 0.0, prices, [], CHEAP).Allowed?
      && SumFor(Act(Book([], []), Open(CHEAP)).positions, BySymbol, "S", Notional(prices)) == 100.0
      && SumFor(Act(Book([], []), Open(CHEAP)).positions, ByExchange, "x", Notional(prices)) == 100.0
  {
    var prices := map["S" := 100.0];
    assert Registered(Book([], []), AsPosition(CHEAP)).positions == [] + [AsPosition(CHEAP)];
    SumForGrows([], AsPosition(CHEAP), BySymbol, "S", Notional(prices));
    SumForGrows([], AsPosition(CHEAP), ByExchange, "x", Notional(prices));
  }

  const SELLING := Shrink("i", Fill(55.0, 1.0, "sell"))

  const SOLD := AsPosition(CHEAP).(realized := 5.0, quantity := 0.0, closed := true)

  lemma SoldOff()
    ensures AfterAll(Book([], []), [Open(CHEAP), SELLING]) == Book([SOLD], [])
  {
    var p, actions := AsPosition(CHEAP), [Open(CHEAP), SELLING];
    assert actions[..1] == [Open(CHEAP)] && actions[..1][..0] == [];
    assert AfterAll(Book([], []), actions[..1]) == Book([p], []);
    assert Value(55.0 - 50.0, 1.0) == 5.0;
    assert Filled(p, Fill(55.0, 1.0, "sell")) == SOLD;
    assert [p][0 := SOLD] == [SOLD];
  }

  lemma SoldIsRefused()
    ensures var l, other := Limits(60.0, 60.0, 1, 60.0, 0.0), CHEAP.(instance := "j");
      Judge(l, 0.0, map[], [SOLD], other) == Denied(OpenPositions, 1.0, 1.0)
  {
    var other, m := CHEAP.(instance := "j"), Notional(Repriced(map[], CHEAP));
    assert [] + [SOLD] == [SOLD];
    SumForGrows([], SOLD, BySymbol, "S", m);
    SumForGrows([], SOLD, ByExchange, "x", m);
    assert SOLD.instance == "i" && "i"[0] != "j"[0];
    assert Value(50.0, 1.0) == 50.0;
  }

  /** One position is opened and sold off: nothing is open, yet with room for one the next instance is refused. */
  lemma RefusedWithNothingOpen() returns (l: Limits, sold: Book, other: Order)
    ensures l.maxOpen == 1 && sold == AfterAll(Book([], []), [Open(CHEAP), SELLING]) && OpenCount(sold.positions) == 0
    ensures Judge(l, 0.0, map[], [], CHEAP).Allowed?
    ensures Judge(l, 0.0, map[], sold.positions, other) == Denied(OpenPositions, 1.0, 1.0)
  {
    l, sold, other := Limits(60.0, 60.0, 1, 60.0, 0.0), Book([SOLD], []), CHEAP.(instance := "j");
    SoldOff();
    SoldIsRefused();
    AllOpenIff([SOLD]);
    assert SOLD in [SOLD];
  }
}
