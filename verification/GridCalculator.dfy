/** Generating the levels of a grid (calculator.py). */
module GridCalculator {
  import opened Options
  import opened Grid
  import opened RealMath

  const TP_MULTIPLIER := 2.5

  function Spacing(upper: real, lower: real, count: int): real
    requires count != 0
  {
    (upper - lower) / count as real
  }

  predicate Accepts(upper: real, lower: real, count: int, investment: real) {
    upper > lower && count >= 2 && investment > 0.0
  }

  function EvenLevel(upper: real, lower: real, count: int, investment: real, i: nat): Level
    requires count != 0
  {
    var spacing := Spacing(upper, lower, count);
    var buy := lower + spacing * i as real;
    var sell := Min(buy + spacing * TP_MULTIPLIER, upper);
    Level(i, buy, sell, if buy > 0.0 then investment / buy else 0.0, None, None, Waiting)
  }

  /** `calculate_levels`; None is its ValidationError. */
  method CalculateLevels(upper: real, lower: real, count: int, investment: real) returns (levels: Option<seq<Level>>)
    ensures levels.Some? <==> upper > lower && count >= 2 && investment > 0.0
    ensures levels.Some? ==> |levels.value| == count
                             && forall i | 0 <= i < count ::
                                  levels.value[i] == EvenLevel(upper, lower, count, investment, i)
  {
    if upper <= lower || count < 2 || investment <= 0.0 {
      return None;
    }
    var spacing := Spacing(upper, lower, count);
    var made: seq<Level> := [];
    for i := 0 to count
      invariant |made| == i && forall j | 0 <= j < i :: made[j] == EvenLevel(upper, lower, count, investment, j)
    {
      var buy := lower + spacing * i as real;
      var sell := buy + spacing * TP_MULTIPLIER;
      if sell > upper {
        sell := upper;
      }
      var quantity := if buy > 0.0 then investment / buy else 0.0;
      made := made + [Level(i, buy, sell, quantity, None, None, Waiting)];
    }
    return Some(made);
  }

  /** The levels cut the range into equal parts and sell two and a half parts above their buy price, the topmost at
      the end of the range. A level whose price is not positive buys nothing. */
  lemma EvenParts(upper: real, lower: real, count: int, investment: real, i: nat)
    requires upper > lower && count >= 2 && i < count
    ensures var lv, range := EvenLevel(upper, lower, count, investment, i), upper - lower;
      && (lv.buyPrice - lower) * count as real == range * i as real
      && (2 * (count - i) >= 5 ==> (lv.sellPrice - lv.buyPrice) * count as real == range * 2.5)
      && (2 * (count - i) <= 5 ==> lv.sellPrice == upper)
      && (if lv.buyPrice > 0.0 then lv.quantity * lv.buyPrice == investment else lv.quantity == 0.0)
  {
    var n, k, spacing := count as real, i as real, Spacing(upper, lower, count);
    var lv := EvenLevel(upper, lower, count, investment, i);
    PartsAddUp(upper - lower, n, k);
    assert lv.buyPrice == lower + spacing * k;
    assert lv.sellPrice == Min(lv.buyPrice + spacing * TP_MULTIPLIER, upper);
    PartsReach(upper - lower, n, k);
    if lv.buyPrice > 0.0 {
      QuotientTimes(investment, lv.buyPrice);
    }
  }

  /** `k` parts of a range cut into `n`, and two and a half more. */
  lemma PartsAddUp(range: real, n: real, k: real)
    requires n > 0.0
    ensures range / n * k * n == range * k && range / n * TP_MULTIPLIER * n == range * TP_MULTIPLIER
  {
    QuotientTimes(range, n);
    MulSwap(n, range / n, k);
  }

  lemma PartsReach(range: real, n: real, k: real)
    requires range > 0.0 && n > 0.0
    ensures k + TP_MULTIPLIER <= n ==> range / n * k + range / n * TP_MULTIPLIER <= range
    ensures k + TP_MULTIPLIER >= n ==> range / n * k + range / n * TP_MULTIPLIER >= range
  {
    var part := range / n;
    QuotientTimes(range, n);
    if part <= 0.0 {
      MulLe(part, 0.0, n);
    }
    assert part * k + part * TP_MULTIPLIER == (k + TP_MULTIPLIER) * part;
    if k + TP_MULTIPLIER <= n {
      MulLe(k + TP_MULTIPLIER, n, part);
    }
    if k + TP_MULTIPLIER >= n {
      MulLe(n, k + TP_MULTIPLIER, part);
    }
  }

  /** Where an evenly spaced level lies. */
  lemma EvenLevelBounds(upper: real, lower: real, count: int, investment: real, i: nat)
    requires Accepts(upper, lower, count, investment) && lower > 0.0 && i < count
    ensures var lv, spacing := EvenLevel(upper, lower, count, investment, i), Spacing(upper, lower, count);
      && spacing > 0.0 && lower <= lv.buyPrice <= upper - spacing
      && spacing <= lv.sellPrice - lv.buyPrice <= spacing * TP_MULTIPLIER && lv.sellPrice <= upper
      && lv.quantity >= investment / upper && lv.quantity * lv.buyPrice == investment
  {
    var spacing, lv := Spacing(upper, lower, count), EvenLevel(upper, lower, count, investment, i);
    SpacingsFit(upper - lower, count as real, i as real);
    assert lv.buyPrice == lower + spacing * i as real;
    InverseShrinks(investment, lv.buyPrice, upper);
  }

  /** `k` spacings of a range cut into `n` leave room for at least one more. */
  lemma SpacingsFit(range: real, n: real, k: real)
    requires range > 0.0 && 0.0 <= k <= n - 1.0
    ensures range / n > 0.0 && 0.0 <= range / n * k <= range - range / n
  {
    var spacing := range / n;
    QuotientTimes(range, n);
    if spacing <= 0.0 {
      MulLe(spacing, 0.0, n);
    }
    MulNonNegative(spacing, k);
    MulLe(k, n - 1.0, spacing);
    Distribute(n, -1.0, spacing);
  }

  lemma InverseShrinks(investment: real, low: real, high: real)
    requires investment > 0.0 && 0.0 < low <= high
    ensures investment / low >= investment / high && investment / low * low == investment
  {
    var a, b := investment / low, investment / high;
    assert a * low == investment && b * high == investment;
    assert b > 0.0;
    MulLe(low, high, b);
    if a < b {
      MulLt(a, b, low);
    }
  }

  /** A completed cycle of an even grid, sold whole at its limit or better, earns at least one spacing
      on the smallest quantity the investment buys. */
  lemma CycleEarns(upper: real, lower: real, count: int, investment: real, i: nat, fill: real)
    requires Accepts(upper, lower, count, investment) && lower > 0.0 && i < count
    requires fill >= EvenLevel(upper, lower, count, investment, i).sellPrice
    ensures var lv := EvenLevel(upper, lower, count, investment, i);
      (fill - lv.buyPrice) * lv.quantity >= Spacing(upper, lower, count) * (investment / upper)
  {
    EvenLevelBounds(upper, lower, count, investment, i);
    var lv, spacing := EvenLevel(upper, lower, count, investment, i), Spacing(upper, lower, count);
    MulLe(investment / upper, lv.quantity, spacing);
    MulLe(spacing, fill - lv.buyPrice, lv.quantity);
  }

  // ------------------------------------------------------------------ averaging steps

  datatype AveragingStep = AveragingStep(number: int, dropRate: real, multiplier: real, takeProfit: real)

  function Shifted(price: real, percent: real): real { price * (1.0 + percent / 100.0) }

  /** The buy price of step `k`, following the drops of the steps before it; None once one is not positive. */
  function BuyPriceAt(start: real, steps: seq<AveragingStep>, k: nat): Option<real>
    requires k < |steps|
  {
    if steps[k].number == 0 then
      if k > 0 && BuyPriceAt(start, steps, k - 1).None? then None else Some(start)
    else
      var before := if k == 0 then Some(start) else BuyPriceAt(start, steps, k - 1);
      if before.None? then None
      else
        var price := Shifted(before.value, -steps[k].dropRate);
        if price <= 0.0 then None else Some(price)
  }

  /** Level `lv` is what step `k` asks for: it spends its share of the investment at the step's price. */
  ghost predicate Follows(lv: Level, start: real, investment: real, steps: seq<AveragingStep>, k: nat)
    requires k < |steps|
  {
    && BuyPriceAt(start, steps, k) == Some(lv.buyPrice) && lv.buyPrice > 0.0
    && lv.sellPrice == Shifted(lv.buyPrice, steps[k].takeProfit)
    && lv.quantity * lv.buyPrice == investment * steps[k].multiplier
    && lv.number == steps[k].number && lv.status == Waiting && lv.buyId == None && lv.sellId == None
  }

  /** `calculate_levels_with_averaging`; None is its ValidationError. */
  method CalculateWithAveraging(start: real, investment: real, steps: seq<AveragingStep>)
    returns (levels: Option<seq<Level>>)
    ensures levels.Some?
      <==> steps != [] && investment > 0.0 && start > 0.0 && BuyPriceAt(start, steps, |steps| - 1).Some?
    ensures levels.Some? ==>
      && |levels.value| == |steps|
      && forall k | 0 <= k < |steps| :: Follows(levels.value[k], start, investment, steps, k)
  {
    if steps == [] || investment <= 0.0 || start <= 0.0 {
      return None;
    }
    var made: seq<Level> := [];
    var previous := start;
    for k := 0 to |steps|
      invariant |made| == k && previous > 0.0
      invariant previous == if k == 0 then start else made[k - 1].buyPrice
      invariant forall j | 0 <= j < k :: Follows(made[j], start, investment, steps, j)
    {
      var step := steps[k];
      var buy := start;
      if step.number != 0 {
        buy := Shifted(previous, -step.dropRate);
        if buy <= 0.0 {
          NoPriceAfter(start, steps, k, |steps| - 1);
          return None;
        }
      }
      var stepInvestment := investment * step.multiplier;
      var quantity := if buy > 0.0 then stepInvestment / buy else 0.0;
      QuotientTimes(stepInvestment, buy);
      var lv := Level(step.number, buy, Shifted(buy, step.takeProfit), quantity, None, None, Waiting);
      assert Follows(lv, start, investment, steps, k);
      made := made + [lv];
      previous := buy;
    }
    return Some(made);
  }

  /** A shifted price lies that many percent off. */
  lemma ShiftIsPercent(price: real, percent: real)
    requires price > 0.0
    ensures (Shifted(price, percent) - price) / price * 100.0 == percent
  {
    assert Shifted(price, percent) - price == price * (percent / 100.0);
  }

  /** A step has a price exactly if no step up to it, other than those numbered 0, drops by 100 percent or more. */
  lemma {:induction false} LadderReachesIff(start: real, steps: seq<AveragingStep>, k: nat)
    requires start > 0.0 && k < |steps|
    ensures BuyPriceAt(start, steps, k).Some? <==>
      forall i | 0 <= i <= k :: steps[i].number != 0 ==> steps[i].dropRate < 100.0
    ensures BuyPriceAt(start, steps, k).Some? ==> BuyPriceAt(start, steps, k).value > 0.0
  {
    if k > 0 {
      LadderReachesIff(start, steps, k - 1);
    }
    var before := if k == 0 then Some(start) else BuyPriceAt(start, steps, k - 1);
    if before.Some? {
      var kept := 1.0 + -steps[k].dropRate / 100.0;
      if kept > 0.0 {
        MulLt(0.0, kept, before.value);
      } else {
        MulLe(kept, 0.0, before.value);
      }
      assert Shifted(before.value, -steps[k].dropRate) == kept * before.value;
    }
  }

  lemma DropLeavesLess(before: real, rate: real)
    requires before > 0.0 && 0.0 < rate < 100.0
    ensures 0.0 < Shifted(before, -rate) < before
  {
    var kept := 1.0 + -rate / 100.0;
    assert 0.0 < kept < 1.0;
    MulLt(kept, 1.0, before);
    MulLt(0.0, kept, before);
    assert before * kept == kept * before;
  }

  lemma {:induction false} NoPriceAfter(start: real, steps: seq<AveragingStep>, k: nat, n: nat)
    requires k <= n < |steps| && BuyPriceAt(start, steps, k).None?
    ensures BuyPriceAt(start, steps, n).None?
  {
    if k < n {
      NoPriceAfter(start, steps, k, n - 1);
    }
  }

  /** The ladder only goes down: with rates between 0 and 100 after the first step, every later step buys
      cheaper, and never for nothing. */
  lemma {:induction false} LadderDescends(start: real, steps: seq<AveragingStep>, j: nat, k: nat)
    requires start > 0.0 && j < k < |steps|
    requires forall i | 0 <= i < |steps| :: steps[i].number == 0 <==> i == 0
    requires forall i | 0 < i < |steps| :: 0.0 < steps[i].dropRate < 100.0
    ensures BuyPriceAt(start, steps, j).Some? && BuyPriceAt(start, steps, k).Some?
    ensures 0.0 < BuyPriceAt(start, steps, k).value < BuyPriceAt(start, steps, j).value
  {
    if j > 0 {
      LadderDescends(start, steps, 0, j);
    }
    if j + 1 < k {
      LadderDescends(start, steps, j, k - 1);
    }
    DropLeavesLess(BuyPriceAt(start, steps, k - 1).value, steps[k].dropRate);
  }
}
