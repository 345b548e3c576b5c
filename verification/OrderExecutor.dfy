/** `OrderExecutor.execute`: one order, placed with a bounded number of attempts. */
module OrderExecutor {
  import opened Options
  import opened Orders
  import opened RealMath

  /** What one `adapter.place_order` does: return, raise something transient, or raise anything else. */
  datatype Attempt = Accepted(result: Result) | Transient | Refused

  /** `seen` is a complete retry loop of at most `maxRetries` attempts and `answer` what came of it:
      only transient failures are retried, and nothing is tried after an acceptance or a refusal. */
  ghost predicate Executed(maxRetries: nat, seen: seq<Attempt>, answer: Option<Result>) {
    && |seen| <= maxRetries
    && (forall i | 0 <= i < |seen| - 1 :: seen[i].Transient?)
    && (seen == [] ==> maxRetries == 0 && answer == None)
    && (seen != [] ==> match seen[|seen|-1]
                       case Accepted(r) => answer == Some(r)
                       case Refused => answer == None
                       case Transient => |seen| == maxRetries && answer == None)
  }

  /** The exchange, as far as it can be seen: any attempt may end in any way. */
  class Adapter {
    ghost var seen: seq<Attempt>

    constructor ()
      ensures seen == []
    {
      seen := [];
    }

    method PlaceOrder() returns (a: Attempt)
      modifies this
      ensures seen == old(seen) + [a]
    {
      var result: Result, kind: int := *, *;
      a := if kind == 0 then Accepted(result) else if kind == 1 then Transient else Refused;
      seen := seen + [a];
    }
  }

  datatype Backoff = Backoff(base: real, longest: real, multiplier: real)

  function Grown(b: Backoff, pause: real): real { pause * b.multiplier }

  function Longer(b: Backoff, pause: real): real { Min(Grown(b, pause), b.longest) }

  /** The pause after failed attempt `k`, counted from zero: it grows by the multiplier up to a maximum. */
  function Pause(b: Backoff, k: nat): real { if k == 0 then b.base else Longer(b, Pause(b, k - 1)) }

  /** The first `n` pauses together. */
  function Pauses(b: Backoff, n: nat): real { if n == 0 then 0.0 else Pauses(b, n - 1) + Pause(b, n - 1) }

  lemma LongerGrows(b: Backoff, pause: real)
    requires 0.0 <= pause <= b.longest && b.multiplier >= 1.0
    ensures pause <= Longer(b, pause) <= b.longest
  {
    MulLe(1.0, b.multiplier, pause);
  }

  /** With a multiplier of at least one the pauses never shrink, nor do they exceed the maximum. */
  lemma {:induction false} PausesGrow(b: Backoff, k: nat)
    requires 0.0 <= b.base <= b.longest && b.multiplier >= 1.0
    ensures b.base <= Pause(b, k) <= Longer(b, Pause(b, k)) <= b.longest
  {
    if k > 0 {
      PausesGrow(b, k - 1);
    }
    LongerGrows(b, Pause(b, k));
  }

  /** The base times the multiplier to the `k`: what pause `k` would be without a maximum. */
  function Unbounded(b: Backoff, k: nat): real { if k == 0 then b.base else Grown(b, Unbounded(b, k - 1)) }

  lemma {:induction false} UnboundedGrows(b: Backoff, k: nat)
    requires b.base >= 0.0 && b.multiplier >= 1.0
    ensures 0.0 <= Unbounded(b, k) <= Unbounded(b, k + 1)
  {
    if k > 0 {
      UnboundedGrows(b, k - 1);
    }
    MulLe(1.0, b.multiplier, Unbounded(b, k));
  }

  /** The first pause is the base; every later one is the unbounded one or the maximum, whichever is less. */
  lemma {:induction false} PauseIsBounded(b: Backoff, k: nat)
    requires b.base >= 0.0 && b.longest >= 0.0 && b.multiplier >= 1.0
    ensures Pause(b, k) == if k == 0 then b.base else Min(Unbounded(b, k), b.longest)
  {
    if k == 1 {
      assert Pause(b, 1) == Longer(b, Pause(b, 0));
      assert Unbounded(b, 1) == Grown(b, Unbounded(b, 0));
    } else if k > 1 {
      PauseIsBounded(b, k - 1);
      assert 0.0 <= Unbounded(b, k - 1) <= Unbounded(b, k) by {
        UnboundedGrows(b, k - 1);
      }
      LongerOfLess(b, Unbounded(b, k - 1));
    }
  }

  /** Growing what the maximum has cut is as good as cutting what has grown. */
  lemma LongerOfLess(b: Backoff, pause: real)
    requires b.longest >= 0.0 && b.multiplier >= 1.0 && 0.0 <= pause <= Grown(b, pause)
    ensures Longer(b, Min(pause, b.longest)) == Longer(b, pause)
  {
    MulLe(1.0, b.multiplier, b.longest);
  }

  /** What a total grows by. */
  function Growth(b: Backoff, total: real): real { Grown(b, total) - total }

  lemma SeriesStep(b: Backoff, sum: real, last: real)
    ensures Growth(b, sum + last) == Growth(b, sum) + Growth(b, last)
  {
    Distribute(sum, last, b.multiplier);
  }

  lemma {:induction false} PausesGrowBy(b: Backoff, n: nat)
    requires b.base >= 0.0 && b.multiplier >= 1.0 && b.longest >= 0.0
    requires n > 1 ==> Unbounded(b, n - 1) <= b.longest
    ensures Growth(b, Pauses(b, n)) == Unbounded(b, n) - b.base
  {
    if n > 0 {
      assert n > 2 ==> Unbounded(b, n - 2) <= b.longest by {
        if n > 2 {
          UnboundedGrows(b, n - 2);
        }
      }
      PausesGrowBy(b, n - 1);
      assert Pause(b, n - 1) == Unbounded(b, n - 1) by {
        PauseIsBounded(b, n - 1);
      }
      SeriesStep(b, Pauses(b, n - 1), Unbounded(b, n - 1));
    }
  }

  /** While the maximum is not passed the pauses are a geometric series. */
  lemma PausesAddUp(b: Backoff, n: nat)
    requires b.base >= 0.0 && b.multiplier >= 1.0 && b.longest >= 0.0
    requires n > 1 ==> Unbounded(b, n - 1) <= b.longest
    ensures Pauses(b, n) * b.multiplier - Pauses(b, n) == Unbounded(b, n) - b.base
  {
    PausesGrowBy(b, n);
  }

  /** Past the maximum every further pause adds that much. */
  lemma PausesAtMaximum(b: Backoff, n: nat)
    requires b.base >= 0.0 && b.multiplier >= 1.0 && b.longest >= 0.0 && n > 0 && b.longest <= Unbounded(b, n)
    ensures Pauses(b, n + 1) == Pauses(b, n) + b.longest
  {
    PauseIsBounded(b, n);
  }

  /** It pauses after every attempt but the last. */
  method Execute(adapter: Adapter, maxRetries: nat, baseDelay: real, maxDelay: real, multiplier: real)
    returns (answer: Option<Result>, slept: real, ghost seen: seq<Attempt>)
    modifies adapter
    ensures adapter.seen == old(adapter.seen) + seen && Executed(maxRetries, seen, answer)
    ensures slept == Pauses(Backoff(baseDelay, maxDelay, multiplier), if seen == [] then 0 else |seen| - 1)
  {
    var b := Backoff(baseDelay, maxDelay, multiplier);
    var delay, attempt := baseDelay, 0;
    seen, slept := [], 0.0;
    while attempt < maxRetries
      invariant (attempt < maxRetries || attempt == maxRetries == 0) && |seen| == attempt
      invariant adapter.seen == old(adapter.seen) + seen
      invariant forall i | 0 <= i < |seen| :: seen[i].Transient?
      invariant delay == Pause(b, attempt) && slept == Pauses(b, attempt)
    {
      var a := adapter.PlaceOrder();
      seen := seen + [a];
      match a
      case Accepted(result) => return Some(result), slept, seen;
      case Refused => return None, slept, seen;
      case Transient =>
        if attempt == maxRetries - 1 {
          return None, slept, seen;
        }
        slept := slept + delay;
        delay := Longer(b, delay);
      attempt := attempt + 1;
    }
    return None, slept, seen;
  }
}
