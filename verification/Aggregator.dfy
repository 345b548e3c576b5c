/** Positions merged by exchange, account or symbol, and the net position (aggregator.py). */
module Aggregator {
  import opened RealMath
  import opened Portfolio
  import opened Exposure

  datatype Aggregated = Aggregated(key: string, long: real, short: real, net: real, average: real, count: nat)

  ghost predicate Summarizes(a: Aggregated, ps: seq<Position>) {
    && a.long == Sum(ps, LongQuantity) && a.short == Sum(ps, ShortQuantity) && a.net == a.long - a.short
    && a.count as real == Sum(ps, Count)
    && a.average == if Sum(ps, Quantity) > 0.0 then Sum(ps, Cost) / Sum(ps, Quantity) else 0.0
  }

  lemma {:induction false} SumGrows(ps: seq<Position>, p: Position, m: Measure)
    ensures Sum(ps + [p], m) == Sum(ps, m) + if p.closed then 0.0 else Weigh(m, p)
  {
    assert (ps + [p])[..|ps|] == ps;
  }

  /** The running totals of that loop. */
  datatype Totals = Totals(long: real, short: real, cost: real, quantity: real, count: nat)

  function Added(t: Totals, p: Position): Totals {
    if p.closed then t
    else Totals(
      t.long + if p.side == "long" then p.quantity else 0.0,
      t.short + if p.side == "long" then 0.0 else p.quantity,
                t.cost + Value(p.entry, p.quantity), t.quantity + p.quantity, t.count + 1)
  }

  function TotalOf(t: Totals, m: Measure): real {
    match m
    case LongQuantity => t.long
    case ShortQuantity => t.short
    case Cost => t.cost
    case Quantity => t.quantity
    case _ => t.count as real
  }

  ghost predicate Sums(t: Totals, ps: seq<Position>, m: Measure) { TotalOf(t, m) == Sum(ps, m) }

  ghost predicate Totalled(t: Totals, ps: seq<Position>) {
    Sums(t, ps, LongQuantity) && Sums(t, ps, ShortQuantity) && Sums(t, ps, Cost) && Sums(t, ps, Quantity)
      && Sums(t, ps, Count)
  }

  lemma SumsGrow(t: Totals, ps: seq<Position>, p: Position, m: Measure)
    requires m in {LongQuantity, ShortQuantity, Cost, Quantity, Count} && Sums(t, ps, m)
    ensures Sums(Added(t, p), ps + [p], m)
  {
    SumGrows(ps, p, m);
  }

  lemma TotalsGrow(t: Totals, ps: seq<Position>, p: Position)
    requires Totalled(t, ps)
    ensures Totalled(Added(t, p), ps + [p])
  {
    SumsGrow(t, ps, p, LongQuantity);
    SumsGrow(t, ps, p, ShortQuantity);
    SumsGrow(t, ps, p, Cost);
    SumsGrow(t, ps, p, Quantity);
    SumsGrow(t, ps, p, Count);
  }

  /** The accumulation loop of `_aggregate` and of `get_net_position`. */
  method Summarize(key: string, ps: seq<Position>) returns (a: Aggregated)
    ensures a.key == key && Summarizes(a, ps)
  {
    var long, short, cost, quantity, count := 0.0, 0.0, 0.0, 0.0, 0;
    for i := 0 to |ps|
      invariant Totalled(Totals(long, short, cost, quantity, count), ps[..i])
    {
      var p := ps[i];
      assert ps[..i + 1] == ps[..i] + [p];
      ghost var t := Totals(long, short, cost, quantity, count);
      TotalsGrow(t, ps[..i], p);
      if !p.closed {
        count := count + 1;
        if p.side == "long" {
          long := long + p.quantity;
        } else {
          short := short + p.quantity;
        }
        cost := cost + Value(p.entry, p.quantity);
        quantity := quantity + p.quantity;
      }
      assert Totals(long, short, cost, quantity, count) == Added(t, p);
    }
    assert ps[..|ps|] == ps;
    a := Aggregated(key, long, short, long - short, if quantity > 0.0 then cost / quantity else 0.0, count);
  }

  /** The open positions with one key. */
  function Select(ps: seq<Position>, d: Dimension, k: string): seq<Position> {
    if ps == [] then []
    else
      var before, last := Select(ps[..|ps|-1], d, k), ps[|ps|-1];
      if last.closed || KeyOf(d, last) != k then before else before + [last]
  }

  lemma SumWithSelected(ps: seq<Position>, p: Position, d: Dimension, k: string, m: Measure)
    ensures Sum(if p.closed || KeyOf(d, p) != k then ps else ps + [p], m)
         == Sum(ps, m) + if p.closed || KeyOf(d, p) != k then 0.0 else Weigh(m, p)
  {
    SumGrows(ps, p, m);
  }

  lemma {:induction false} SelectedSum(ps: seq<Position>, d: Dimension, k: string, m: Measure)
    ensures Sum(Select(ps, d, k), m) == SumFor(ps, d, k, m)
  {
    if ps != [] {
      var init, last := ps[..|ps|-1], ps[|ps|-1];
      SelectedSum(init, d, k, m);
      SumWithSelected(Select(init, d, k), last, d, k, m);
    }
  }

  lemma {:induction false} SelectGrows(ps: seq<Position>, p: Position, d: Dimension, k: string)
    ensures Select(ps + [p], d, k) == if p.closed || KeyOf(d, p) != k then Select(ps, d, k) else Select(ps, d, k) + [p]
  {
    assert (ps + [p])[..|ps|] == ps;
  }

  lemma {:induction false} NoneSelected(ps: seq<Position>, d: Dimension, k: string)
    requires k !in Keys(ps, d)
    ensures Select(ps, d, k) == []
  {
    if ps != [] {
      var init, last := ps[..|ps|-1], ps[|ps|-1];
      assert last in ps && forall p <- init :: p in ps;
      assert !last.closed ==> KeyOf(d, last) in Keys(ps, d);
      assert forall p <- init :: !p.closed ==> KeyOf(d, p) in Keys(ps, d);
      NoneSelected(init, d, k);
    }
  }

  ghost predicate Aggregates(ps: seq<Position>, d: Dimension, r: map<string, Aggregated>) {
    r.Keys == Keys(ps, d) && forall k <- r :: r[k].key == k && Summarizes(r[k], Select(ps, d, k))
  }

  ghost predicate Grouped(ps: seq<Position>, d: Dimension, groups: map<string, seq<Position>>) {
    groups.Keys == Keys(ps, d) && forall k <- groups :: groups[k] == Select(ps, d, k)
  }

  /** `groups.setdefault(key, []).append(pos)` unless the position is closed. */
  function Appended(groups: map<string, seq<Position>>, p: Position, d: Dimension): map<string, seq<Position>> {
    var k := KeyOf(d, p);
    if p.closed then groups else groups[k := (if k in groups then groups[k] else []) + [p]]
  }

  lemma {:induction false} GroupGrows(ps: seq<Position>, p: Position, d: Dimension,
      groups: map<string, seq<Position>>, k: string)
    requires Grouped(ps, d, groups) && k in Appended(groups, p, d)
    ensures Appended(groups, p, d)[k] == Select(ps + [p], d, k)
  {
    SelectGrows(ps, p, d, k);
    if k !in groups {
      NoneSelected(ps, d, k);
    }
  }

  lemma GroupedGrows(ps: seq<Position>, p: Position, d: Dimension, groups: map<string, seq<Position>>)
    requires Grouped(ps, d, groups)
    ensures Grouped(ps + [p], d, Appended(groups, p, d))
  {
    KeysGrow(ps, p, d);
    forall k <- Appended(groups, p, d) ensures Appended(groups, p, d)[k] == Select(ps + [p], d, k) {
      GroupGrows(ps, p, d, groups, k);
    }
  }

  /** The first loop of `_aggregate`: open positions by key. */
  method Group(ps: seq<Position>, d: Dimension) returns (groups: map<string, seq<Position>>)
    ensures Grouped(ps, d, groups)
  {
    groups := map[];
    for i := 0 to |ps|
      invariant Grouped(ps[..i], d, groups)
    {
      var p := ps[i];
      assert ps[..i + 1] == ps[..i] + [p];
      GroupedGrows(ps[..i], p, d, groups);
      if !p.closed {
        var k := KeyOf(d, p);
        groups := groups[k := (if k in groups then groups[k] else []) + [p]];
      }
    }
    assert ps[..|ps|] == ps;
  }

  ghost predicate SummarizesEach(groups: map<string, seq<Position>>, r: map<string, Aggregated>) {
    forall k <- r :: k in groups && r[k].key == k && Summarizes(r[k], groups[k])
  }

  /** The second loop: one summary per group. */
  method SummarizeGroups(groups: map<string, seq<Position>>) returns (r: map<string, Aggregated>)
    ensures r.Keys == groups.Keys && SummarizesEach(groups, r)
  {
    r := map[];
    var left := groups.Keys;
    while left != {}
      invariant left <= groups.Keys && r.Keys == groups.Keys - left && SummarizesEach(groups, r)
      decreases |left|
    {
      var k :| k in left;
      var a := Summarize(k, groups[k]);
      r := r[k := a];
      left := left - {k};
    }
  }

  /** `_aggregate`. */
  method Aggregate(ps: seq<Position>, d: Dimension) returns (r: map<string, Aggregated>)
    ensures Aggregates(ps, d, r)
  {
    var groups := Group(ps, d);
    r := SummarizeGroups(groups);
    forall k <- r ensures r[k].key == k && Summarizes(r[k], Select(ps, d, k)) {
      assert groups[k] == Select(ps, d, k);
    }
  }

  // ------------------------------------------------------------------ they agree

  datatype Column = Longs | Shorts | Nets | Counts | Costs

  /** What one aggregate says in a column; its cost is average times quantity. */
  function Cell(a: Aggregated, c: Column): real {
    match c
    case Longs => a.long
    case Shorts => a.short
    case Nets => a.net
    case Counts => a.count as real
    case Costs => Value(a.average, a.long + a.short)
  }

  function ColumnTotal(r: map<string, Aggregated>, ks: seq<string>, c: Column): real
    requires forall k <- ks :: k in r
  {
    if ks == [] then 0.0 else ColumnTotal(r, ks[..|ks|-1], c) + Cell(r[ks[|ks|-1]], c)
  }

  ghost predicate NoDebts(ps: seq<Position>) { forall p <- ps :: !p.closed ==> p.quantity >= 0.0 }

  lemma {:induction false} QuantityCoversCost(ps: seq<Position>)
    requires NoDebts(ps)
    ensures Sum(ps, Quantity) >= 0.0 && (Sum(ps, Quantity) == 0.0 ==> Sum(ps, Cost) == 0.0)
  {
    if ps != [] {
      assert ps[|ps|-1] in ps && forall p <- ps[..|ps|-1] :: p in ps;
      QuantityCoversCost(ps[..|ps|-1]);
    }
  }

  function MeasureOf(c: Column): Measure
    requires !c.Nets?
  {
    match c
    case Longs => LongQuantity
    case Shorts => ShortQuantity
    case Counts => Count
    case Costs => Cost
  }

  /** Each cell of a summary is the sum it stands for. */
  lemma {:induction false} CellIsSum(a: Aggregated, ps: seq<Position>, c: Column)
    requires Summarizes(a, ps) && (c.Costs? ==> NoDebts(ps))
    ensures Cell(a, c) == if c.Nets? then Sum(ps, LongQuantity) - Sum(ps, ShortQuantity) else Sum(ps, MeasureOf(c))
  {
    if c.Costs? {
      QuantityCoversCost(ps);
      SidesAddUp(ps, map[]);
      AverageTimesQuantity(Sum(ps, Cost), Sum(ps, Quantity));
    }
  }

  lemma AverageTimesQuantity(cost: real, quantity: real)
    requires quantity >= 0.0 && (quantity == 0.0 ==> cost == 0.0)
    ensures Value(if quantity > 0.0 then cost / quantity else 0.0, quantity) == cost
  {
    if quantity > 0.0 {
      QuotientTimes(cost, quantity);
    }
  }

  lemma {:induction false} SelectKeepsNoDebts(ps: seq<Position>, d: Dimension, k: string)
    requires NoDebts(ps)
    ensures NoDebts(Select(ps, d, k))
  {
    if ps != [] {
      assert ps[|ps|-1] in ps && forall p <- ps[..|ps|-1] :: p in ps;
      SelectKeepsNoDebts(ps[..|ps|-1], d, k);
    }
  }

  function KeyTotal(ps: seq<Position>, d: Dimension, k: string, c: Column): real {
    if c.Nets? then SumFor(ps, d, k, LongQuantity) - SumFor(ps, d, k, ShortQuantity) else SumFor(ps, d, k, MeasureOf(c))
  }

  /** The aggregate of one key holds the sums over the positions with that key. */
  lemma {:induction false} AggregateIsKeyTotal(ps: seq<Position>, d: Dimension, k: string, a: Aggregated, c: Column)
    requires Summarizes(a, Select(ps, d, k)) && (c.Costs? ==> NoDebts(ps))
    ensures Cell(a, c) == KeyTotal(ps, d, k, c)
  {
    if c.Costs? {
      SelectKeepsNoDebts(ps, d, k);
    }
    CellIsSum(a, Select(ps, d, k), c);
    if c.Nets? {
      SelectedSum(ps, d, k, LongQuantity);
      SelectedSum(ps, d, k, ShortQuantity);
    } else {
      SelectedSum(ps, d, k, MeasureOf(c));
    }
  }

  lemma {:induction false} ColumnIsSumOver(ps: seq<Position>, d: Dimension, r: map<string, Aggregated>,
      ks: seq<string>, c: Column)
    requires forall k <- ks :: k in r && Cell(r[k], c) == KeyTotal(ps, d, k, c)
    ensures ColumnTotal(r, ks, c) ==
      if c.Nets? then SumOver(ps, d, LongQuantity, ks) - SumOver(ps, d, ShortQuantity, ks)
        else SumOver(ps, d, MeasureOf(c), ks)
  {
    if ks != [] {
      var init, k := ks[..|ks|-1], ks[|ks|-1];
      assert k in ks && forall l <- init :: l in ks;
      ColumnIsSumOver(ps, d, r, init, c);
    }
  }

  /** The aggregates of any dimension, listed in any order, recombine to the net position: in long, short
      and net quantity, in the number of positions and, while no quantity is negative, in cost. */
  lemma {:induction false} AggregatesRecombine(ps: seq<Position>, d: Dimension, r: map<string, Aggregated>,
      net: Aggregated, ks: seq<string>, c: Column)
    requires Aggregates(ps, d, r) && Summarizes(net, ps) && Lists(ks, r) && (c.Costs? ==> NoDebts(ps))
    ensures (forall k <- ks :: k in r) && ColumnTotal(r, ks, c) == Cell(net, c)
  {
    forall k <- ks ensures k in r && Cell(r[k], c) == KeyTotal(ps, d, k, c) {
      assert k in (set l <- ks);
      AggregateIsKeyTotal(ps, d, k, r[k], c);
    }
    forall p <- ps | !p.closed ensures KeyOf(d, p) in ks {
      assert KeyOf(d, p) in Keys(ps, d);
      assert KeyOf(d, p) in (set l <- ks);
    }
    ColumnIsSumOver(ps, d, r, ks, c);
    CellIsSum(net, ps, c);
    GroupsAddUp(ps, d, LongQuantity, ks);
    GroupsAddUp(ps, d, ShortQuantity, ks);
    if !c.Nets? {
      GroupsAddUp(ps, d, MeasureOf(c), ks);
    }
  }
}
