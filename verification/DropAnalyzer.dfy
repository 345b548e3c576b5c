/** The critical daily drop: the least drop after which prices usually went on falling
    (daily_drop_analyzer.py). */
module DropAnalyzer {
  import opened RealMath

  const CANDIDATES := [1.0, 1.5, 2.0, 2.5, 3.0, 3.5, 4.0, 4.5, 5.0, 5.5, 6.0, 6.5,
                       7.0, 7.5, 8.0, 8.5, 9.0, 9.5, 10.0, 11.0, 12.0, 13.0, 14.0, 15.0]

  /** `_fallback`. */
  function FallbackFor(minRate: real): real {
    if minRate == 0.7 then 3.0 else if minRate == 0.8 then 4.0 else if minRate == 0.9 then 5.0 else 4.0
  }

  datatype Demands = Demands(minRate: real, minSamples: int, window: int, futureDrop: real)

  /** `DivisionByZero` stands for the exception of dividing by the size of an empty subset. */
  datatype Analysis =
    | Found(threshold: real, events: nat, continued: nat, rate: real)
    | Fallback(threshold: real)
    | DivisionByZero

  /** One day: its change in percent, the close that many days later, and its own close. */
  datatype Drop = Drop(change: real, future: real, close: real)

  function Change(before: real, after: real): real
    requires before != 0.0
  {
    (after - before) / before * 100.0
  }

  /** The days from 1 up to `end` whose closes are positive. */
  function DropsTo(closes: seq<real>, window: int, end: int): seq<Drop>
    requires window >= 1 && end + window <= |closes|
    decreases end
  {
    if end <= 1 then []
    else
      var before, i := DropsTo(closes, window, end - 1), end - 1;
      if closes[i - 1] <= 0.0 || closes[i] <= 0.0 then before
      else before + [Drop(Change(closes[i - 1], closes[i]), closes[i + window], closes[i])]
  }

  function Window(d: Demands): int { if d.window < 1 then 1 else d.window }

  function Drops(closes: seq<real>, d: Demands): seq<Drop> { DropsTo(closes, Window(d), |closes| - Window(d)) }

  function Factor(d: Demands): real { 1.0 - d.futureDrop / 100.0 }

  function Events(drops: seq<Drop>, t: real): nat {
    if drops == [] then 0 else Events(drops[..|drops|-1], t) + if drops[|drops|-1].change <= -t then 1 else 0
  }

  predicate Continues(d: Drop, factor: real) { d.future <= d.close * factor }

  function Continued(drops: seq<Drop>, t: real, factor: real): nat {
    if drops == [] then 0
    else
      var last := drops[|drops|-1];
      Continued(drops[..|drops|-1], t, factor) + if last.change <= -t && Continues(last, factor) then 1 else 0
  }

  /** Enough days dropped that much, and at least the required part of them went on falling. */
  predicate Qualifies(drops: seq<Drop>, t: real, d: Demands) {
    var n := Events(drops, t);
    n > 0 && n >= d.minSamples && Continued(drops, t, Factor(d)) as real / n as real >= d.minRate
  }

  /** The scan divides by the size of an empty subset. */
  predicate Undefined(drops: seq<Drop>, t: real, d: Demands) { Events(drops, t) == 0 && d.minSamples <= 0 }

  function Scan(drops: seq<Drop>, d: Demands, candidates: seq<real>, k: nat): Analysis
    requires k <= |candidates|
    decreases |candidates| - k
  {
    if k == |candidates| then Fallback(FallbackFor(d.minRate))
    else
      var t := candidates[k];
      if Undefined(drops, t, d) then DivisionByZero
      else if Qualifies(drops, t, d) then
        var n, c := Events(drops, t), Continued(drops, t, Factor(d));
        Found(t, n, c, c as real / n as real)
      else Scan(drops, d, candidates, k + 1)
  }

  /** The analysis with any list of candidates; the program's is CANDIDATES. */
  function Analyze(closes: seq<real>, d: Demands, candidates: seq<real>): Analysis {
    if |closes| < Window(d) + 2 || |Drops(closes, d)| < d.minSamples then Fallback(FallbackFor(d.minRate))
    else Scan(Drops(closes, d), d, candidates, 0)
  }

  // ------------------------------------------------------------------ the loops

  method BuildDrops(closes: seq<real>, window: int) returns (drops: seq<Drop>)
    requires window >= 1 && |closes| >= window + 2
    ensures drops == DropsTo(closes, window, |closes| - window)
  {
    drops := [];
    for i := 1 to |closes| - window
      invariant drops == DropsTo(closes, window, i)
    {
      var previous, current, future := closes[i - 1], closes[i], closes[i + window];
      if !(previous <= 0.0 || current <= 0.0) {
        drops := drops + [Drop((current - previous) / previous * 100.0, future, current)];
      }
    }
  }

  method CountDrops(drops: seq<Drop>, threshold: real, factor: real) returns (events: nat, continued: nat)
    ensures events == Events(drops, -threshold) && continued == Continued(drops, -threshold, factor)
  {
    events, continued := 0, 0;
    for i := 0 to |drops|
      invariant events == Events(drops[..i], -threshold) && continued == Continued(drops[..i], -threshold, factor)
    {
      assert drops[..i + 1][..i] == drops[..i];
      if drops[i].change <= threshold {
        events := events + 1;
        if drops[i].future <= drops[i].close * factor {
          continued := continued + 1;
        }
      }
    }
    assert drops[..|drops|] == drops;
  }

  /** The scan of the candidates, from small to large. */
  method ScanCandidates(drops: seq<Drop>, d: Demands, candidates: seq<real>) returns (r: Analysis)
    ensures r == Scan(drops, d, candidates, 0)
  {
    var factor := 1.0 - d.futureDrop / 100.0;
    for k := 0 to |candidates|
      invariant Scan(drops, d, candidates, 0) == Scan(drops, d, candidates, k)
    {
      var t := candidates[k];
      var events, continued := CountDrops(drops, -t, factor);
      if events >= d.minSamples {
        if events == 0 {
          return DivisionByZero;
        }
        var rate := continued as real / events as real;
        if rate >= d.minRate {
          return Found(t, events, continued, rate);
        }
      }
    }
    r := Fallback(FallbackFor(d.minRate));
  }

  method AnalyzeDetailed(closes: seq<real>, minRate: real, minSamples: int, continuationWindow: int, futureDrop: real)
    returns (r: Analysis)
    ensures r == Analyze(closes, Demands(minRate, minSamples, continuationWindow, futureDrop), CANDIDATES)
  {
    r := AnalyzeWith(closes, Demands(minRate, minSamples, continuationWindow, futureDrop), CANDIDATES);
  }

  method AnalyzeWith(closes: seq<real>, d: Demands, candidates: seq<real>) returns (r: Analysis)
    ensures r == Analyze(closes, d, candidates)
  {
    var window := if d.window < 1 then 1 else d.window;
    if |closes| < window + 2 {
      return Fallback(FallbackFor(d.minRate));
    }
    var drops := BuildDrops(closes, window);
    if |drops| < d.minSamples {
      return Fallback(FallbackFor(d.minRate));
    }
    r := ScanCandidates(drops, d, candidates);
  }

  // ------------------------------------------------------------------ the least candidate

  ghost predicate Ascending(candidates: seq<real>) {
    forall i, j | 0 <= i < j < |candidates| :: candidates[i] < candidates[j]
  }

  lemma CandidatesAscend()
    ensures Ascending(CANDIDATES)
  {
    var c := CANDIDATES;
    assert forall k | 0 <= k < |c| - 1 :: c[k] < c[k + 1];
    forall i, j | 0 <= i < j < |c| ensures c[i] < c[j] {
      StepsAscend(c, i, j);
    }
  }

  lemma {:induction false} StepsAscend(c: seq<real>, i: nat, j: nat)
    requires i < j < |c| && forall k | 0 <= k < |c| - 1 :: c[k] < c[k + 1]
    ensures c[i] < c[j]
  {
    if i + 1 < j {
      StepsAscend(c, i, j - 1);
    }
    assert c[j - 1] < c[j - 1 + 1];
  }

  ghost predicate FirstQualifying(drops: seq<Drop>, d: Demands, candidates: seq<real>, k: nat, i: nat) {
    && k <= i < |candidates| && Qualifies(drops, candidates[i], d)
    && forall j | k <= j < i :: !Qualifies(drops, candidates[j], d)
  }

  lemma {:induction false} ScanFinds(drops: seq<Drop>, d: Demands, candidates: seq<real>, k: nat)
    requires k <= |candidates| && d.minSamples >= 1
    ensures !Scan(drops, d, candidates, k).DivisionByZero?
    ensures Scan(drops, d, candidates, k).Fallback?
      <==> forall j | k <= j < |candidates| :: !Qualifies(drops, candidates[j], d)
    ensures Scan(drops, d, candidates, k).Found? ==>
      exists i: nat ::
        FirstQualifying(drops, d, candidates, k, i) && Scan(drops, d, candidates, k).threshold == candidates[i]
    decreases |candidates| - k
  {
    if k < |candidates| {
      ScanFinds(drops, d, candidates, k + 1);
      var r := Scan(drops, d, candidates, k);
      if Qualifies(drops, candidates[k], d) {
        assert FirstQualifying(drops, d, candidates, k, k);
      } else if r.Found? {
        var i: nat :| FirstQualifying(drops, d, candidates, k + 1, i) && r.threshold == candidates[i];
        assert FirstQualifying(drops, d, candidates, k, i);
      }
    }
  }

  /** The first candidate that qualifies is the least. */
  lemma {:induction false} ScanFindsLeast(drops: seq<Drop>, d: Demands, candidates: seq<real>)
    requires d.minSamples >= 1 && Ascending(candidates)
    ensures IsLeast(Scan(drops, d, candidates, 0), drops, d, candidates)
  {
    ScanFinds(drops, d, candidates, 0);
    var r := Scan(drops, d, candidates, 0);
    if r.Found? {
      var i: nat :| FirstQualifying(drops, d, candidates, 0, i) && r.threshold == candidates[i];
      assert candidates[i] in candidates;
    } else {
      assert forall t <- candidates :: !Qualifies(drops, t, d);
    }
  }

  ghost predicate IsLeast(r: Analysis, drops: seq<Drop>, d: Demands, candidates: seq<real>) {
    && (r.Fallback? <==> forall t <- candidates :: !Qualifies(drops, t, d))
    && (r.Found? <==> exists t <- candidates :: Qualifies(drops, t, d))
    && (r.Found? ==> r.threshold in candidates && Qualifies(drops, r.threshold, d))
    && (r.Found? ==> forall t <- candidates :: Qualifies(drops, t, d) ==> r.threshold <= t)
  }

  lemma {:induction false} EventsAtMost(drops: seq<Drop>, t: real)
    ensures Events(drops, t) <= |drops|
  {
    if drops != [] {
      EventsAtMost(drops[..|drops|-1], t);
    }
  }

  /** The early exits are no exceptions: without the data, no candidate could qualify. */
  lemma TooLittleData(closes: seq<real>, d: Demands, t: real)
    requires d.minSamples >= 1 && (|closes| < Window(d) + 2 || |Drops(closes, d)| < d.minSamples)
    ensures !Qualifies(Drops(closes, d), t, d)
  {
    EventsAtMost(Drops(closes, d), t);
  }

  /** The result is data-driven exactly when some candidate meets both requirements, and then it is the
      least such candidate; otherwise it is the fallback. */
  lemma LeastQualifying(closes: seq<real>, d: Demands, candidates: seq<real>)
    requires d.minSamples >= 1 && Ascending(candidates)
    ensures IsLeast(Analyze(closes, d, candidates), Drops(closes, d), d, candidates)
  {
    if |closes| < Window(d) + 2 || |Drops(closes, d)| < d.minSamples {
      forall t: real ensures !Qualifies(Drops(closes, d), t, d) {
        TooLittleData(closes, d, t);
      }
    } else {
      ScanFindsLeast(Drops(closes, d), d, candidates);
    }
  }

  // ------------------------------------------------------------------ the days themselves

  /** That many percent below a price. */
  function Below(price: real, percent: real): real { price * (1.0 - percent / 100.0) }

  /** On day `i` the close fell at least `t` percent below that of the day before, both being positive. */
  predicate Fell(closes: seq<real>, i: int, t: real)
    requires 1 <= i < |closes|
  {
    closes[i - 1] > 0.0 && closes[i] > 0.0 && closes[i] <= Below(closes[i - 1], t)
  }

  /** So many days later the close lies at least `f` percent below that of day `i`. */
  predicate WentOn(closes: seq<real>, i: int, window: int, f: real)
    requires window >= 1 && 0 <= i && i + window < |closes|
  {
    closes[i + window] <= Below(closes[i], f)
  }

  /** How many of the days from 1 up to `end` fell that much, and how many of those went on. */
  function Falls(closes: seq<real>, t: real, end: int): nat
    requires end <= |closes|
    decreases end
  {
    if end <= 1 then 0 else Falls(closes, t, end - 1) + if Fell(closes, end - 1, t) then 1 else 0
  }

  function WorseFalls(closes: seq<real>, window: int, t: real, f: real, end: int): nat
    requires window >= 1 && end + window <= |closes|
    decreases end
  {
    if end <= 1 then 0
    else
      var i := end - 1;
      WorseFalls(closes, window, t, f, i) + if Fell(closes, i, t) && WentOn(closes, i, window, f) then 1 else 0
  }

  lemma ChangeMeansFall(before: real, after: real, t: real)
    requires before > 0.0
    ensures Change(before, after) <= -t <==> after <= Below(before, t)
  {
    var q, limit := (after - before) / before, -(t / 100.0);
    QuotientTimes(after - before, before);
    assert Change(before, after) == q * 100.0;
    if q <= limit {
      MulLe(q, limit, before);
    } else {
      MulLt(limit, q, before);
    }
    Distribute(1.0, limit, before);
    assert Below(before, t) == (1.0 + limit) * before;
  }

  lemma ContinuingMeansBelow(x: Drop, f: real)
    ensures Continues(x, 1.0 - f / 100.0) <==> x.future <= Below(x.close, f)
  {
  }

  lemma {:induction false} CountsGrow(drops: seq<Drop>, x: Drop, t: real, factor: real)
    ensures Events(drops + [x], t) == Events(drops, t) + if x.change <= -t then 1 else 0
    ensures Continued(drops + [x], t, factor)
         == Continued(drops, t, factor) + if x.change <= -t && Continues(x, factor) then 1 else 0
  {
    assert (drops + [x])[..|drops|] == drops;
  }

  lemma DayCounts(closes: seq<real>, window: int, t: real, f: real, factor: real, i: int)
    requires window >= 1 && 1 <= i && i + 1 + window <= |closes| && factor == 1.0 - f / 100.0
    ensures var drops, more := DropsTo(closes, window, i), DropsTo(closes, window, i + 1);
      && Events(more, t) == Events(drops, t) + (if Fell(closes, i, t) then 1 else 0)
      && Continued(more, t, factor)
           == Continued(drops, t, factor) + if Fell(closes, i, t) && WentOn(closes, i, window, f) then 1 else 0
  {
    if closes[i - 1] > 0.0 && closes[i] > 0.0 {
      var day := Drop(Change(closes[i - 1], closes[i]), closes[i + window], closes[i]);
      ChangeMeansFall(closes[i - 1], closes[i], t);
      ContinuingMeansBelow(day, f);
      CountsGrow(DropsTo(closes, window, i), day, t, factor);
    }
  }

  lemma {:induction false} CountsAreDays(closes: seq<real>, window: int, t: real, f: real, factor: real, end: int)
    requires window >= 1 && end + window <= |closes| && factor == 1.0 - f / 100.0
    ensures Events(DropsTo(closes, window, end), t) == Falls(closes, t, end)
    ensures Continued(DropsTo(closes, window, end), t, factor) == WorseFalls(closes, window, t, f, end)
    decreases end
  {
    if end > 1 {
      CountsAreDays(closes, window, t, f, factor, end - 1);
      DayCounts(closes, window, t, f, factor, end - 1);
    }
  }

  /** That part of so many days. */
  function Part(rate: real, n: nat): real { rate * n as real }

  /** The closes bear a candidate out: enough days fell that much, and the required part of them went on. */
  predicate BorneOut(closes: seq<real>, d: Demands, t: real) {
    var window := if d.window < 1 then 1 else d.window;
    |closes| > window + 1 &&
    var n := Falls(closes, t, |closes| - window);
    n > 0 && n >= d.minSamples
    && WorseFalls(closes, window, t, d.futureDrop, |closes| - window) as real >= Part(d.minRate, n)
  }

  lemma RateIsQuotient(c: nat, n: nat, rate: real)
    requires n > 0
    ensures c as real / n as real >= rate <==> c as real >= Part(rate, n)
    ensures Part(c as real / n as real, n) == c as real
  {
    var q := c as real / n as real;
    QuotientTimes(c as real, n as real);
    if q >= rate {
      MulLe(rate, q, n as real);
    } else {
      MulLt(q, rate, n as real);
    }
  }

  lemma {:induction false} QualifiesMeansBorneOut(closes: seq<real>, d: Demands, t: real)
    requires |closes| >= Window(d) + 2
    ensures Qualifies(Drops(closes, d), t, d) <==> BorneOut(closes, d, t)
    ensures Events(Drops(closes, d), t) == Falls(closes, t, |closes| - Window(d))
    ensures Continued(Drops(closes, d), t, Factor(d))
         == WorseFalls(closes, Window(d), t, d.futureDrop, |closes| - Window(d))
  {
    var drops, end := Drops(closes, d), |closes| - Window(d);
    CountsAreDays(closes, Window(d), t, d.futureDrop, Factor(d), end);
    var n, c := Events(drops, t), Continued(drops, t, Factor(d));
    assert n == Falls(closes, t, end) && c == WorseFalls(closes, Window(d), t, d.futureDrop, end);
    if n > 0 {
      RateIsQuotient(c, n, d.minRate);
    }
  }

  /** What the analysis finds, about the closes alone. */
  ghost predicate FindsLeast(r: Analysis, closes: seq<real>, d: Demands, candidates: seq<real>) {
    var window := if d.window < 1 then 1 else d.window;
    match r
    case DivisionByZero => false
    case Fallback(threshold) =>
      && (forall t <- candidates :: !BorneOut(closes, d, t))
      && (if d.minRate == 0.7 then threshold == 3.0
          else if d.minRate == 0.9 then threshold == 5.0
          else threshold == 4.0)
    case Found(threshold, events, continued, rate) =>
      && threshold in candidates && BorneOut(closes, d, threshold)
      && (forall t <- candidates :: BorneOut(closes, d, t) ==> threshold <= t)
      && events == Falls(closes, threshold, |closes| - window) && events > 0
      && continued == WorseFalls(closes, window, threshold, d.futureDrop, |closes| - window)
      && Part(rate, events) == continued as real
  }

  /** The result is data-driven exactly when the closes bear out some candidate, and then it is the least of
      them with its counts; otherwise it is the fallback for the required rate. */
  lemma LeastBorneOut(closes: seq<real>, d: Demands, candidates: seq<real>)
    requires d.minSamples >= 1 && Ascending(candidates)
    ensures FindsLeast(Analyze(closes, d, candidates), closes, d, candidates)
  {
    var r := Analyze(closes, d, candidates);
    LeastQualifying(closes, d, candidates);
    forall t: real ensures Qualifies(Drops(closes, d), t, d) <==> BorneOut(closes, d, t) {
      if |closes| >= Window(d) + 2 {
        QualifiesMeansBorneOut(closes, d, t);
      } else {
        TooLittleData(closes, d, t);
      }
    }
    if r.Found? {
      FoundCounts(closes, d, candidates);
    } else {
      ScanFallsBack(Drops(closes, d), d, candidates, 0);
    }
  }

  lemma {:induction false} FoundCounts(closes: seq<real>, d: Demands, candidates: seq<real>)
    requires d.minSamples >= 1 && Analyze(closes, d, candidates).Found?
    ensures var r, end := Analyze(closes, d, candidates), |closes| - Window(d);
      && end >= 2 && r.events == Falls(closes, r.threshold, end) && r.events > 0
      && r.continued == WorseFalls(closes, Window(d), r.threshold, d.futureDrop, end)
      && Part(r.rate, r.events) == r.continued as real
  {
    var r := Analyze(closes, d, candidates);
    ScanCounts(Drops(closes, d), d, candidates, 0);
    QualifiesMeansBorneOut(closes, d, r.threshold);
    RateIsQuotient(r.continued, r.events, d.minRate);
  }

  /** A threshold that is found comes with its counts, and a fallback is that of the required rate. */
  lemma {:induction false} ScanCounts(drops: seq<Drop>, d: Demands, candidates: seq<real>, k: nat)
    requires k <= |candidates| && d.minSamples >= 1 && Scan(drops, d, candidates, k).Found?
    ensures var r := Scan(drops, d, candidates, k);
      && r.events == Events(drops, r.threshold) > 0 && r.continued == Continued(drops, r.threshold, Factor(d))
      && r.rate == r.continued as real / r.events as real
    decreases |candidates| - k
  {
    if !Qualifies(drops, candidates[k], d) {
      ScanCounts(drops, d, candidates, k + 1);
    }
  }

  lemma {:induction false} ScanFallsBack(drops: seq<Drop>, d: Demands, candidates: seq<real>, k: nat)
    requires k <= |candidates|
    ensures Scan(drops, d, candidates, k).Fallback? ==>
      Scan(drops, d, candidates, k).threshold == FallbackFor(d.minRate)
    decreases |candidates| - k
  {
    if k < |candidates| {
      ScanFallsBack(drops, d, candidates, k + 1);
    }
  }

  function Halves(n: int): real { n as real / 2.0 }

  /** The program tries every half percent from 1 to 10, and then every percent to 15. */
  lemma CandidatesAre(t: real)
    ensures t in CANDIDATES <==> exists n :: t == Halves(n) && (2 <= n <= 20 || (22 <= n <= 30 && n % 2 == 0))
  {
    var c := CANDIDATES;
    assert |c| == 24 && (forall k | 0 <= k < 19 :: c[k] == Halves(k + 2));
    assert forall k | 19 <= k < 24 :: c[k] == Halves(2 * k - 16);
    if n :| t == Halves(n) && (2 <= n <= 20 || (22 <= n <= 30 && n % 2 == 0)) {
      assert c[if n <= 20 then n - 2 else n / 2 + 8] == t;
    }
    if t in c {
      var k :| 0 <= k < |c| && c[k] == t;
      assert t == Halves(if k < 19 then k + 2 else 2 * k - 16);
    }
  }

  // ------------------------------------------------------------------ stricter demands

  predicate Stricter(d: Demands, e: Demands) {
    d.minRate <= e.minRate && d.minSamples <= e.minSamples && d.window == e.window && d.futureDrop <= e.futureDrop
  }

  ghost predicate Positive(drops: seq<Drop>) { forall x <- drops :: x.close > 0.0 }

  lemma {:induction false} DropsArePositive(closes: seq<real>, window: int, end: int)
    requires window >= 1 && end + window <= |closes|
    ensures Positive(DropsTo(closes, window, end))
    decreases end
  {
    if end > 1 {
      DropsArePositive(closes, window, end - 1);
    }
  }

  lemma ContinuesUnderLess(x: Drop, low: real, high: real)
    requires x.close > 0.0 && low <= high
    ensures Continues(x, low) ==> Continues(x, high)
  {
    MulLe(low, high, x.close);
    assert x.close * low <= x.close * high;
  }

  lemma {:induction false} FewerContinue(drops: seq<Drop>, t: real, low: real, high: real)
    requires Positive(drops) && low <= high
    ensures Continued(drops, t, low) <= Continued(drops, t, high)
  {
    if drops != [] {
      var init, last := drops[..|drops|-1], drops[|drops|-1];
      assert last in drops && forall x <- init :: x in drops;
      FewerContinue(init, t, low, high);
      ContinuesUnderLess(last, low, high);
    }
  }

  lemma QuotientGrows(a: nat, b: nat, n: nat)
    requires a <= b && n > 0
    ensures a as real / n as real <= b as real / n as real
  {
    MulLe(a as real, b as real, 1.0 / n as real);
    assert a as real * (1.0 / n as real) == a as real / n as real;
    assert b as real * (1.0 / n as real) == b as real / n as real;
  }

  lemma QualifiesUnderLess(drops: seq<Drop>, t: real, d: Demands, e: Demands)
    requires Positive(drops) && Stricter(d, e) && Qualifies(drops, t, e)
    ensures Qualifies(drops, t, d)
  {
    FewerContinue(drops, t, Factor(e), Factor(d));
    QuotientGrows(Continued(drops, t, Factor(e)), Continued(drops, t, Factor(d)), Events(drops, t));
  }

  /** Asking for a higher rate, more samples or a deeper further fall never lowers a data-driven threshold,
      and never turns a fallback into one. */
  lemma StricterNeverLowers(closes: seq<real>, d: Demands, e: Demands, candidates: seq<real>)
    requires d.minSamples >= 1 && Stricter(d, e) && Ascending(candidates) && Analyze(closes, e, candidates).Found?
    ensures Analyze(closes, d, candidates).Found?
    ensures Analyze(closes, d, candidates).threshold <= Analyze(closes, e, candidates).threshold
  {
    var drops := Drops(closes, d);
    assert Drops(closes, e) == drops;
    LeastQualifying(closes, d, candidates);
    LeastQualifying(closes, e, candidates);
    DropsArePositive(closes, Window(d), |closes| - Window(d));
    LeastUnderLess(Analyze(closes, d, candidates), Analyze(closes, e, candidates), drops, d, e, candidates);
  }

  lemma LeastUnderLess(r: Analysis, r': Analysis, drops: seq<Drop>, d: Demands, e: Demands, candidates: seq<real>)
    requires Positive(drops) && Stricter(d, e) && IsLeast(r, drops, d, candidates)
      && IsLeast(r', drops, e, candidates) && r'.Found?
    ensures r.Found? && r.threshold <= r'.threshold
  {
    QualifiesUnderLess(drops, r'.threshold, d, e);
  }

  // ------------------------------------------------------------------ the unit of account

  function Times(c: real, x: real): real { c * x }

  function Scaled(closes: seq<real>, c: real): (r: seq<real>)
    ensures |r| == |closes| && forall i | 0 <= i < |r| :: r[i] == Times(c, closes[i])
  {
    seq(|closes|, i requires 0 <= i < |closes| => Times(c, closes[i]))
  }

  lemma ChangeIsRelative(a: real, b: real, c: real)
    requires a > 0.0 && c > 0.0
    ensures Times(c, a) != 0.0 && Change(Times(c, a), Times(c, b)) == Change(a, b)
  {
    var q := (b - a) / a;
    QuotientTimes(b - a, a);
    MulSwap(q, c, a);
    Distribute(b, -a, c);
    MulNonZero(c, a);
    QuotientIs(Times(c, b) - Times(c, a), Times(c, a), q);
  }

  lemma MulNonZero(c: real, a: real)
    requires a > 0.0 && c > 0.0
    ensures c * a > 0.0
  {
    MulLt(0.0, c, a);
  }

  predicate IsScaled(x: Drop, y: Drop, c: real) { y == Drop(x.change, Times(c, x.future), Times(c, x.close)) }

  /** Days of two series that differ in the unit of account only. */
  ghost predicate SameButScaled(drops: seq<Drop>, scaled: seq<Drop>, c: real) {
    |drops| == |scaled| && forall i | 0 <= i < |drops| :: IsScaled(drops[i], scaled[i], c)
  }

  lemma SignKept(a: real, c: real)
    requires c > 0.0
    ensures Times(c, a) <= 0.0 <==> a <= 0.0
  {
    if a > 0.0 {
      MulLt(0.0, a, c);
    } else {
      MulLe(a, 0.0, c);
    }
  }

  lemma {:induction false} DropsScale(closes: seq<real>, c: real, window: int, end: int)
    requires c > 0.0 && window >= 1 && end + window <= |closes|
    ensures SameButScaled(DropsTo(closes, window, end), DropsTo(Scaled(closes, c), window, end), c)
    decreases end
  {
    if end > 1 {
      DropsScale(closes, c, window, end - 1);
      var i := end - 1;
      SignKept(closes[i - 1], c);
      SignKept(closes[i], c);
      if closes[i - 1] > 0.0 && closes[i] > 0.0 {
        ChangeIsRelative(closes[i - 1], closes[i], c);
        var x := Drop(Change(closes[i - 1], closes[i]), closes[i + window], closes[i]);
        var s := Scaled(closes, c);
        var y := Drop(Change(s[i - 1], s[i]), s[i + window], s[i]);
        assert IsScaled(x, y, c);
      }
    }
  }

  lemma ContinuesScales(x: Drop, y: Drop, factor: real, c: real)
    requires c > 0.0 && IsScaled(x, y, c)
    ensures Continues(y, factor) <==> Continues(x, factor)
  {
    SignKept(x.future - x.close * factor, c);
    assert Times(c, x.future - x.close * factor) == y.future - y.close * factor;
  }

  lemma {:induction false} CountsScale(drops: seq<Drop>, scaled: seq<Drop>, c: real, t: real, factor: real)
    requires c > 0.0 && SameButScaled(drops, scaled, c)
    ensures Events(scaled, t) == Events(drops, t) && Continued(scaled, t, factor) == Continued(drops, t, factor)
  {
    if drops != [] {
      var i := |drops| - 1;
      CountsScale(drops[..i], scaled[..i], c, t, factor);
      ContinuesScales(drops[i], scaled[i], factor, c);
    }
  }

  lemma {:induction false} ScanScales(drops: seq<Drop>, scaled: seq<Drop>, c: real, d: Demands, candidates: seq<real>,
      k: nat)
    requires c > 0.0 && SameButScaled(drops, scaled, c) && k <= |candidates|
    ensures Scan(scaled, d, candidates, k) == Scan(drops, d, candidates, k)
    decreases |candidates| - k
  {
    if k < |candidates| {
      CountsScale(drops, scaled, c, candidates[k], Factor(d));
      ScanScales(drops, scaled, c, d, candidates, k + 1);
    }
  }

  /** Scaling every close by a positive factor changes nothing in the result. */
  lemma ScaleInvariant(closes: seq<real>, c: real, d: Demands, candidates: seq<real>)
    requires c > 0.0
    ensures Analyze(Scaled(closes, c), d, candidates) == Analyze(closes, d, candidates)
  {
    DropsScale(closes, c, Window(d), |closes| - Window(d));
    if |closes| >= Window(d) + 2 && |Drops(closes, d)| >= d.minSamples {
      ScanScales(Drops(closes, d), Drops(Scaled(closes, c), d), c, d, candidates, 0);
    }
  }

  // ------------------------------------------------------------------ without samples

  /** Candidate `i` is the first to be undefined, and none before it qualifies. */
  ghost predicate FailsAt(drops: seq<Drop>, d: Demands, candidates: seq<real>, k: nat, i: nat) {
    && k <= i < |candidates| && Undefined(drops, candidates[i], d)
    && forall j | k <= j < i :: !Qualifies(drops, candidates[j], d)
  }

  /** With no minimum of samples the scan fails exactly when it comes to a candidate that no day reached
      before it finds one that qualifies. */
  lemma {:induction false} ScanFailsIff(drops: seq<Drop>, d: Demands, candidates: seq<real>, k: nat)
    requires k <= |candidates|
    ensures Scan(drops, d, candidates, k).DivisionByZero? <==> exists i: nat :: FailsAt(drops, d, candidates, k, i)
    decreases |candidates| - k
  {
    if k < |candidates| {
      ScanFailsIff(drops, d, candidates, k + 1);
      var t := candidates[k];
      if Undefined(drops, t, d) {
        assert FailsAt(drops, d, candidates, k, k);
      } else {
        forall i: nat
          ensures FailsAt(drops, d, candidates, k, i)
            <==> !Qualifies(drops, t, d) && FailsAt(drops, d, candidates, k + 1, i)
        {
          FailsLater(drops, d, candidates, k, i);
        }
        if Scan(drops, d, candidates, k).DivisionByZero? {
          var i: nat :| FailsAt(drops, d, candidates, k + 1, i);
          FailsLater(drops, d, candidates, k, i);
        }
      }
    }
  }

  lemma FailsLater(drops: seq<Drop>, d: Demands, candidates: seq<real>, k: nat, i: nat)
    requires k < |candidates| && !Undefined(drops, candidates[k], d)
    ensures FailsAt(drops, d, candidates, k, i)
      <==> !Qualifies(drops, candidates[k], d) && FailsAt(drops, d, candidates, k + 1, i)
  {
    if FailsAt(drops, d, candidates, k, i) {
      assert i != k;
    }
  }

  /** No day fell as much as candidate `i`, and the closes bear none before it out. */
  ghost predicate Starves(closes: seq<real>, d: Demands, window: int, candidates: seq<real>, i: nat)
    requires 0 <= window <= |closes|
  {
    && i < |candidates| && Falls(closes, candidates[i], |closes| - window) == 0
    && forall j | 0 <= j < i :: !BorneOut(closes, d, candidates[j])
  }

  /** About the closes alone: the analysis fails exactly if no samples are asked for, there are closes enough, and
      it comes to a candidate that no day fell as much as. */
  lemma AnalysisFailsIff(closes: seq<real>, d: Demands, candidates: seq<real>)
    ensures var window := if d.window < 1 then 1 else d.window;
      Analyze(closes, d, candidates).DivisionByZero? <==>
        && d.minSamples <= 0 && |closes| >= window + 2
        && exists i: nat :: Starves(closes, d, window, candidates, i)
  {
    var drops, window := Drops(closes, d), Window(d);
    if |closes| >= window + 2 {
      forall t: real ensures Qualifies(drops, t, d) <==> BorneOut(closes, d, t)
        ensures Events(drops, t) == Falls(closes, t, |closes| - window)
      {
        QualifiesMeansBorneOut(closes, d, t);
      }
      ScanFailsIff(drops, d, candidates, 0);
      if d.minSamples <= 0 {
        forall i: nat ensures FailsAt(drops, d, candidates, 0, i) <==> Starves(closes, d, window, candidates, i) {
        }
      }
    }
  }
}
