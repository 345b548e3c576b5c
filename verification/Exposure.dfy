/** Exposure by exchange, account and symbol (exposure.py), aggregation (aggregator.py), and the totals
    they must agree with (metrics.py). Closed positions never count. */
module Exposure {
  import opened Portfolio

  datatype Dimension = ByExchange | ByAccount | BySymbol

  function KeyOf(d: Dimension, p: Position): string {
    match d
    case ByExchange => p.exchange
    case ByAccount => p.account
    case BySymbol => p.symbol
  }

  /** `prices.get(pos.symbol, pos.entry_price)`. */
  function PriceOf(p: Position, prices: map<string, real>): real {
    if p.symbol in prices then prices[p.symbol] else p.entry
  }

  /** The quantities that the loops of these classes add up. */
  datatype Measure =
    | Notional(prices: map<string, real>)
    | SignedNotional(prices: map<string, real>)
    | LongNotional(prices: map<string, real>)
    | ShortNotional(prices: map<string, real>)
    | LongQuantity | ShortQuantity | Quantity | Cost | Count
    | UnrealizedPnl(prices: map<string, real>)

  function Weigh(m: Measure, p: Position): real {
    match m
    case Notional(prices) => Value(PriceOf(p, prices), p.quantity)
    case SignedNotional(prices) =>
      if p.side == "long" then Value(PriceOf(p, prices), p.quantity) else -Value(PriceOf(p, prices), p.quantity)
    case LongNotional(prices) => if p.side == "long" then Value(PriceOf(p, prices), p.quantity) else 0.0
    case ShortNotional(prices) => if p.side == "long" then 0.0 else Value(PriceOf(p, prices), p.quantity)
    case LongQuantity => if p.side == "long" then p.quantity else 0.0
    case ShortQuantity => if p.side == "long" then 0.0 else p.quantity
    case Quantity => p.quantity
    case Cost => Value(p.entry, p.quantity)
    case Count => 1.0
    case UnrealizedPnl(prices) => if p.symbol in prices then Unrealized(p, prices[p.symbol]) else 0.0
  }

  /** The total over the open positions. */
  function Sum(ps: seq<Position>, m: Measure): real {
    if ps == [] then 0.0
    else Sum(ps[..|ps|-1], m) + if ps[|ps|-1].closed then 0.0 else Weigh(m, ps[|ps|-1])
  }

  /** The total over the open positions with one key. */
  function SumFor(ps: seq<Position>, d: Dimension, k: string, m: Measure): real {
    if ps == [] then 0.0
    else
      var last := ps[|ps|-1];
      SumFor(ps[..|ps|-1], d, k, m) + if last.closed || KeyOf(d, last) != k then 0.0 else Weigh(m, last)
  }

  function Keys(ps: seq<Position>, d: Dimension): set<string> { set p <- ps | !p.closed :: KeyOf(d, p) }

  lemma TakeOne(ps: seq<Position>, i: nat, d: Dimension)
    requires i < |ps|
    ensures ps[..i + 1][..i] == ps[..i]
    ensures Keys(ps[..i + 1], d) == Keys(ps[..i], d) + if ps[i].closed then {} else {KeyOf(d, ps[i])}
  {
    assert ps[..i + 1] == ps[..i] + [ps[i]];
  }

  lemma {:induction false} NoneWithKey(ps: seq<Position>, d: Dimension, k: string, m: Measure)
    requires k !in Keys(ps, d)
    ensures SumFor(ps, d, k, m) == 0.0
  {
    if ps != [] {
      var init, last := ps[..|ps|-1], ps[|ps|-1];
      assert last in ps && forall p <- init :: p in ps;
      assert !last.closed ==> KeyOf(d, last) in Keys(ps, d);
      assert forall p <- init :: !p.closed ==> KeyOf(d, p) in Keys(ps, d);
      NoneWithKey(init, d, k, m);
    }
  }

  ghost predicate Groups(ps: seq<Position>, d: Dimension, m: Measure, r: map<string, real>) {
    r.Keys == Keys(ps, d) && forall k <- r :: r[k] == SumFor(ps, d, k, m)
  }

  lemma {:induction false} SumForGrows(ps: seq<Position>, p: Position, d: Dimension, k: string, m: Measure)
    ensures SumFor(ps + [p], d, k, m) == SumFor(ps, d, k, m) + if p.closed || KeyOf(d, p) != k then 0.0 else Weigh(m, p)
  {
    assert (ps + [p])[..|ps|] == ps;
  }

  function Added(r: map<string, real>, k: string, w: real): map<string, real> {
    r[k := (if k in r then r[k] else 0.0) + w]
  }

  lemma KeysGrow(ps: seq<Position>, p: Position, d: Dimension)
    ensures Keys(ps + [p], d) == Keys(ps, d) + if p.closed then {} else {KeyOf(d, p)}
  {
  }

  /** The group of one more open position grows by its weight, from zero if it is new. */
  lemma GroupsGrow(ps: seq<Position>, p: Position, d: Dimension, m: Measure, r: map<string, real>, w: real)
    requires Groups(ps, d, m, r) && w == Weigh(m, p)
    ensures Groups(ps + [p], d, m, if p.closed then r else Added(r, KeyOf(d, p), w))
  {
    var key, r' := KeyOf(d, p), if p.closed then r else Added(r, KeyOf(d, p), w);
    KeysGrow(ps, p, d);
    if key !in r {
      NoneWithKey(ps, d, key, m);
    }
    forall k <- r' ensures r'[k] == SumFor(ps + [p], d, k, m) {
      SumForGrows(ps, p, d, k, m);
    }
  }

  // ------------------------------------------------------------------ the loops

  /** `get_exposure_by_exchange`, `_by_account` and `_by_symbol`. */
  method ExposureBy(d: Dimension, ps: seq<Position>, prices: map<string, real>) returns (r: map<string, real>)
    ensures r.Keys == Keys(ps, d) && forall k <- r :: r[k] == SumFor(ps, d, k, Notional(prices))
  {
    r := map[];
    for i := 0 to |ps|
      invariant Groups(ps[..i], d, Notional(prices), r)
    {
      var p := ps[i];
      assert ps[..i + 1] == ps[..i] + [p];
      GroupsGrow(ps[..i], p, d, Notional(prices), r, Weigh(Notional(prices), p));
      if !p.closed {
        var notional := Value(if p.symbol in prices then prices[p.symbol] else p.entry, p.quantity);
        var k := KeyOf(d, p);
        r := Added(r, k, notional);
      }
    }
    assert ps[..|ps|] == ps;
  }

  /** `get_net_exposure`. */
  method NetExposure(ps: seq<Position>, prices: map<string, real>) returns (net: real)
    ensures net == Sum(ps, SignedNotional(prices))
  {
    net := 0.0;
    for i := 0 to |ps|
      invariant net == Sum(ps[..i], SignedNotional(prices))
    {
      TakeOne(ps, i, BySymbol);
      var p := ps[i];
      if !p.closed {
        var notional := Value(if p.symbol in prices then prices[p.symbol] else p.entry, p.quantity);
        if p.side == "long" {
          net := net + notional;
        } else {
          net := net - notional;
        }
      }
    }
    assert ps[..|ps|] == ps;
  }

  /** `calculate_total_exposure`. */
  method TotalExposure(ps: seq<Position>, prices: map<string, real>) returns (total: real)
    ensures total == Sum(ps, Notional(prices))
  {
    total := 0.0;
    for i := 0 to |ps|
      invariant total == Sum(ps[..i], Notional(prices))
    {
      TakeOne(ps, i, BySymbol);
      if !ps[i].closed {
        total := total + Value(if ps[i].symbol in prices then prices[ps[i].symbol] else ps[i].entry, ps[i].quantity);
      }
    }
    assert ps[..|ps|] == ps;
  }

  /** `calculate_unrealized_pnl`: positions without a price are left out. */
  method UnrealizedTotal(ps: seq<Position>, prices: map<string, real>) returns (total: real)
    ensures total == Sum(ps, UnrealizedPnl(prices))
  {
    total := 0.0;
    for i := 0 to |ps|
      invariant total == Sum(ps[..i], UnrealizedPnl(prices))
    {
      TakeOne(ps, i, BySymbol);
      var p := ps[i];
      if !p.closed && p.symbol in prices {
        if p.side == "long" {
          total := total + Value(prices[p.symbol] - p.entry, p.quantity);
        } else {
          total := total + Value(p.entry - prices[p.symbol], p.quantity);
        }
      }
    }
    assert ps[..|ps|] == ps;
  }

  datatype Report = Report(
    total: real, long: real, short: real, net: real,
    byExchange: map<string, real>, byAccount: map<string, real>, bySymbol: map<string, real>)

  /** `calculate_exposure`. */
  method CalculateExposure(ps: seq<Position>, prices: map<string, real>) returns (r: Report)
    ensures Reports(ps, prices, r)
  {
    var long, short := 0.0, 0.0;
    for i := 0 to |ps|
      invariant long == Sum(ps[..i], LongNotional(prices)) && short == Sum(ps[..i], ShortNotional(prices))
    {
      TakeOne(ps, i, BySymbol);
      var p := ps[i];
      if !p.closed {
        var notional := Value(if p.symbol in prices then prices[p.symbol] else p.entry, p.quantity);
        if p.side == "long" {
          long := long + notional;
        } else {
          short := short + notional;
        }
      }
    }
    assert ps[..|ps|] == ps;
    var byExchange := ExposureBy(ByExchange, ps, prices);
    var byAccount := ExposureBy(ByAccount, ps, prices);
    var bySymbol := ExposureBy(BySymbol, ps, prices);
    r := Report(long + short, long, short, long - short, byExchange, byAccount, bySymbol);
  }

  ghost predicate Reports(ps: seq<Position>, prices: map<string, real>, r: Report) {
    && r.long == Sum(ps, LongNotional(prices)) && r.short == Sum(ps, ShortNotional(prices))
    && r.total == r.long + r.short && r.net == r.long - r.short
    && Groups(ps, ByExchange, Notional(prices), r.byExchange) && Groups(ps, ByAccount, Notional(prices), r.byAccount)
    && Groups(ps, BySymbol, Notional(prices), r.bySymbol)
  }

  // ------------------------------------------------------------------ they agree

  ghost predicate NoRepeats(ks: seq<string>) { forall i, j | 0 <= i < j < |ks| :: ks[i] != ks[j] }

  /** `ks` lists the keys of a map, each once, in some order. */
  ghost predicate Lists<V>(ks: seq<string>, r: map<string, V>) { NoRepeats(ks) && (set k <- ks) == r.Keys }

  function Total(r: map<string, real>, ks: seq<string>): real
    requires forall k <- ks :: k in r
  {
    if ks == [] then 0.0 else Total(r, ks[..|ks|-1]) + r[ks[|ks|-1]]
  }

  function SumOver(ps: seq<Position>, d: Dimension, m: Measure, ks: seq<string>): real {
    if ks == [] then 0.0 else SumOver(ps, d, m, ks[..|ks|-1]) + SumFor(ps, d, ks[|ks|-1], m)
  }

  /** One more position adds its weight to the group of its key alone. */
  lemma {:induction false} OneMore(ps: seq<Position>, p: Position, d: Dimension, m: Measure, ks: seq<string>)
    requires NoRepeats(ks)
    ensures SumOver(ps + [p], d, m, ks)
         == SumOver(ps, d, m, ks) + if p.closed || KeyOf(d, p) !in ks then 0.0 else Weigh(m, p)
  {
    assert (ps + [p])[..|ps|] == ps;
    if ks != [] {
      var init, last := ks[..|ks|-1], ks[|ks|-1];
      OneMore(ps, p, d, m, init);
      assert ks == init + [last];
      assert last !in init;
    }
  }

  /** Grouping loses and repeats nothing: the groups of any dimension, listed in any order, add up to
      the total. */
  lemma {:induction false} GroupsAddUp(ps: seq<Position>, d: Dimension, m: Measure, ks: seq<string>)
    requires NoRepeats(ks) && forall p <- ps :: !p.closed ==> KeyOf(d, p) in ks
    ensures SumOver(ps, d, m, ks) == Sum(ps, m)
  {
    if ps == [] {
      NothingToGroup(d, m, ks);
    } else {
      var init, last := ps[..|ps|-1], ps[|ps|-1];
      assert ps == init + [last];
      GroupsAddUp(init, d, m, ks);
      OneMore(init, last, d, m, ks);
    }
  }

  lemma {:induction false} NothingToGroup(d: Dimension, m: Measure, ks: seq<string>)
    ensures SumOver([], d, m, ks) == 0.0
  {
    if ks != [] {
      NothingToGroup(d, m, ks[..|ks|-1]);
    }
  }

  lemma {:induction false} TotalIsSumOver(ps: seq<Position>, d: Dimension, m: Measure, r: map<string, real>,
      ks: seq<string>)
    requires Groups(ps, d, m, r) && forall k <- ks :: k in r
    ensures Total(r, ks) == SumOver(ps, d, m, ks)
  {
    if ks != [] {
      TotalIsSumOver(ps, d, m, r, ks[..|ks|-1]);
      assert ks[|ks|-1] in r;
    }
  }

  /** The map of any dimension adds up to the total of its measure. */
  lemma {:induction false} MapAddsUp(ps: seq<Position>, d: Dimension, m: Measure, r: map<string, real>, ks: seq<string>)
    requires Groups(ps, d, m, r) && Lists(ks, r)
    ensures (forall k <- ks :: k in r) && Total(r, ks) == Sum(ps, m)
  {
    forall k <- ks ensures k in r {
      assert k in (set l <- ks);
    }
    forall p <- ps | !p.closed ensures KeyOf(d, p) in ks {
      assert KeyOf(d, p) in Keys(ps, d);
      assert KeyOf(d, p) in (set l <- ks);
    }
    TotalIsSumOver(ps, d, m, r, ks);
    GroupsAddUp(ps, d, m, ks);
  }

  lemma {:induction false} SidesAddUp(ps: seq<Position>, prices: map<string, real>)
    ensures Sum(ps, LongNotional(prices)) + Sum(ps, ShortNotional(prices)) == Sum(ps, Notional(prices))
    ensures Sum(ps, LongNotional(prices)) - Sum(ps, ShortNotional(prices)) == Sum(ps, SignedNotional(prices))
    ensures Sum(ps, LongQuantity) + Sum(ps, ShortQuantity) == Sum(ps, Quantity)
  {
    if ps != [] {
      SidesAddUp(ps[..|ps|-1], prices);
    }
  }

  /** The keys of a dimension are the exchanges, accounts or symbols of the open positions. */
  lemma KeysAreFields(ps: seq<Position>, k: string)
    ensures k in Keys(ps, ByExchange) <==> exists p <- ps :: !p.closed && p.exchange == k
    ensures k in Keys(ps, ByAccount) <==> exists p <- ps :: !p.closed && p.account == k
    ensures k in Keys(ps, BySymbol) <==> exists p <- ps :: !p.closed && p.symbol == k
  {
  }

  lemma GainOfOne(p: Position, prices: map<string, real>)
    ensures Weigh(UnrealizedPnl(prices), p) == Weigh(SignedNotional(prices), p) - Weigh(SignedNotional(map[]), p)
  {
    if p.symbol in prices {
      var price := prices[p.symbol];
      assert Value(price - p.entry, p.quantity) == Value(price, p.quantity) - Value(p.entry, p.quantity);
      assert Value(p.entry - price, p.quantity) == Value(p.entry, p.quantity) - Value(price, p.quantity);
    }
  }

  /** What `calculate_unrealized_pnl` adds up is what the net exposure gained since the positions were entered: the
      net exposure at these prices less the one at no prices, which is taken at the entry prices. */
  lemma {:induction false} UnrealizedIsNetGain(ps: seq<Position>, prices: map<string, real>)
    ensures Sum(ps, UnrealizedPnl(prices)) == Sum(ps, SignedNotional(prices)) - Sum(ps, SignedNotional(map[]))
  {
    if ps != [] {
      UnrealizedIsNetGain(ps[..|ps|-1], prices);
      GainOfOne(ps[|ps|-1], prices);
    }
  }

  /** The report agrees with itself and with the other loops: each of its three maps, in any order, sums
      to the total exposure, which is what `calculate_total_exposure` computes, and its net is what
      `get_net_exposure` computes. */
  lemma {:induction false} ReportAgrees(ps: seq<Position>, prices: map<string, real>, r: Report, e: seq<string>,
      a: seq<string>, s: seq<string>)
    requires Reports(ps, prices, r) && Lists(e, r.byExchange) && Lists(a, r.byAccount) && Lists(s, r.bySymbol)
    ensures r.total == Sum(ps, Notional(prices)) && r.net == Sum(ps, SignedNotional(prices))
    ensures (forall k <- e :: k in r.byExchange) && Total(r.byExchange, e) == r.total
    ensures (forall k <- a :: k in r.byAccount) && Total(r.byAccount, a) == r.total
    ensures (forall k <- s :: k in r.bySymbol) && Total(r.bySymbol, s) == r.total
  {
    SidesAddUp(ps, prices);
    MapAddsUp(ps, ByExchange, Notional(prices), r.byExchange, e);
    MapAddsUp(ps, ByAccount, Notional(prices), r.byAccount, a);
    MapAddsUp(ps, BySymbol, Notional(prices), r.bySymbol, s);
  }
}
