/** The greatest decline of a profit history (metrics.py). */
module Drawdown {
  /** No later value lies further below an earlier one, and some pair attains the bound. */
  ghost predicate IsGreatestDecline(h: seq<real>, d: real) {
    && (forall i, j | 0 <= i <= j < |h| :: h[i] - h[j] <= d)
    && (exists i, j | 0 <= i <= j < |h| :: h[i] - h[j] == d)
  }

  /** One pass that remembers the peak computes the maximum over all pairs. */
  method CalculateDrawdown(h: seq<real>) returns (d: real)
    ensures h == [] ==> d == 0.0
    ensures h != [] ==> IsGreatestDecline(h, d)
  {
    if h == [] {
      return 0.0;
    }
    var peak := h[0];
    d := 0.0;
    ghost var top, from, to := 0, 0, 0;
    for k := 0 to |h|
      invariant 0 <= top < |h| && (top < k || k == top == 0) && peak == h[top] && forall i | 0 <= i < k :: h[i] <= peak
      invariant 0 <= from <= to < |h| && h[from] - h[to] == d
      invariant forall i, j | 0 <= i <= j < k :: h[i] - h[j] <= d
    {
      if h[k] > peak {
        peak := h[k];
        top := k;
      }
      var decline := peak - h[k];
      if decline > d {
        d := decline;
        from, to := top, k;
      }
    }
  }
}
