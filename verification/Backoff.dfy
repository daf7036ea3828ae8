// Capped geometric backoff with symmetric jitter (backend/app/domain/backoff.py), over the reals.
module Backoff {
  import opened Domain

  function Pow2(n: nat): real { if n == 0 then 1.0 else 2.0 * Pow2(n - 1) }

  function MinReal(a: real, b: real): real { if a <= b then a else b }

  function MaxReal(a: real, b: real): real { if a >= b then a else b }

  function Exponent(attempt: int): nat { if attempt > 1 then attempt - 1 else 0 }

  function Geometric(base: real, attempt: int): real { base * Pow2(Exponent(attempt)) }

  function Capped(cfg: Settings, attempt: int): real {
    MinReal(Geometric(cfg.retryBaseSeconds, attempt), cfg.retryMaxSeconds)
  }

  function Width(cfg: Settings, attempt: int): real { Capped(cfg, attempt) * cfg.retryJitterRatio }

  /** A value `random.uniform(-width, width)` can return. */
  predicate Draw(cfg: Settings, attempt: int, jitter: real) {
    var w := Width(cfg, attempt);
    if w >= 0.0 then -w <= jitter <= w else w <= jitter <= -w
  }

  function Delay(cfg: Settings, attempt: int, jitter: real): real { MaxReal(0.0, Capped(cfg, attempt) + jitter) }

  predicate Sensible(cfg: Settings) {
    cfg.retryBaseSeconds >= 0.0 && cfg.retryMaxSeconds >= 0.0 && cfg.retryJitterRatio >= 0.0
  }

  // ---------- one delay

  lemma {:induction false} Pow2Grows(m: nat, n: nat)
    requires m <= n
    ensures 1.0 <= Pow2(m) <= Pow2(n)
    decreases n
  {
    if m < n {
      Pow2Grows(m, n - 1);
    } else if n > 0 {
      Pow2Grows(n - 1, n - 1);
    }
  }

  lemma ScaleUp(a: real, x: real, y: real)
    requires a >= 0.0 && x <= y
    ensures a * x <= a * y
  {
  }

  lemma GeometricGrows(base: real, a: int, b: int)
    requires base >= 0.0 && a <= b
    ensures 0.0 <= Geometric(base, a) <= Geometric(base, b)
  {
    Pow2Grows(Exponent(a), Exponent(b));
    var p, q := Pow2(Exponent(a)), Pow2(Exponent(b));
    ScaleUp(base, 0.0, p);
    ScaleUp(base, p, q);
  }

  lemma MinGrows(x: real, y: real, ceiling: real)
    requires 0.0 <= x <= y && ceiling >= 0.0
    ensures 0.0 <= MinReal(x, ceiling) <= MinReal(y, ceiling) <= ceiling
  {
  }

  /** The delay before jitter never falls from one attempt to a later one, and never exceeds the cap. */
  lemma CappedGrows(cfg: Settings, a: int, b: int)
    requires Sensible(cfg) && a <= b
    ensures 0.0 <= Capped(cfg, a) <= Capped(cfg, b) <= cfg.retryMaxSeconds
  {
    GeometricGrows(cfg.retryBaseSeconds, a, b);
    MinGrows(Geometric(cfg.retryBaseSeconds, a), Geometric(cfg.retryBaseSeconds, b), cfg.retryMaxSeconds);
  }

  /** Every delay is nonnegative and within the jitter band of its capped value. */
  lemma DelayBand(cfg: Settings, attempt: int, jitter: real)
    requires Sensible(cfg) && Draw(cfg, attempt, jitter)
    ensures 0.0 <= Delay(cfg, attempt, jitter) <= (1.0 + cfg.retryJitterRatio) * Capped(cfg, attempt)
    ensures Delay(cfg, attempt, jitter) >= (1.0 - cfg.retryJitterRatio) * Capped(cfg, attempt)
  {
    var c, r := Capped(cfg, attempt), cfg.retryJitterRatio;
    CappedGrows(cfg, attempt, attempt);
    ScaleUp(c, 0.0, r);
    assert (1.0 + r) * c == c + c * r && (1.0 - r) * c == c - c * r;
  }

  // ---------- the waits of a run of failures

  /** The waits after failures 1 to `n`, with one draw each. */
  function TotalWait(cfg: Settings, jitters: seq<real>): real {
    if jitters == [] then 0.0 else
    TotalWait(cfg, jitters[..|jitters| - 1]) + Delay(cfg, |jitters|, jitters[|jitters| - 1])
  }

  predicate Draws(cfg: Settings, jitters: seq<real>) {
    forall i :: 0 <= i < |jitters| ==> Draw(cfg, i + 1, jitters[i])
  }

  function CapSum(cfg: Settings, n: nat): real { if n == 0 then 0.0 else CapSum(cfg, n - 1) + Capped(cfg, n) }

  function WidthSum(cfg: Settings, n: nat): real { if n == 0 then 0.0 else WidthSum(cfg, n - 1) + Width(cfg, n) }

  /** `x` added `n` times. */
  function Times(n: nat, x: real): real { if n == 0 then 0.0 else Times(n - 1, x) + x }

  /** `x` added with weights 1, 2, 4, ... */
  function Doubling(n: nat, x: real): real { if n == 0 then 0.0 else Doubling(n - 1, x) + Geometric(x, n) }

  lemma {:induction false} TimesIsProduct(n: nat, x: real)
    ensures Times(n, x) == n as real * x
  {
    if n > 0 {
      TimesIsProduct(n - 1, x);
      assert n as real * x == (n - 1) as real * x + x;
    }
  }

  lemma {:induction false} DoublingIsProduct(n: nat, x: real)
    ensures Doubling(n, x) == x * (Pow2(n) - 1.0)
  {
    if n > 0 {
      DoublingIsProduct(n - 1, x);
      var p := Pow2(n - 1);
      assert Geometric(x, n) == x * p;
      assert x * (2.0 * p - 1.0) == x * (p - 1.0) + x * p;
    }
  }

  lemma OneWait(cfg: Settings, attempt: nat, jitter: real)
    requires Sensible(cfg) && Draw(cfg, attempt, jitter)
    ensures Delay(cfg, attempt, jitter) <= Capped(cfg, attempt) + Width(cfg, attempt)
  {
    CappedGrows(cfg, attempt, attempt);
    ScaleUp(Capped(cfg, attempt), 0.0, cfg.retryJitterRatio);
  }

  lemma {:induction false} WaitsWithinBand(cfg: Settings, jitters: seq<real>)
    requires Sensible(cfg) && Draws(cfg, jitters)
    ensures TotalWait(cfg, jitters) <= CapSum(cfg, |jitters|) + WidthSum(cfg, |jitters|)
  {
    if jitters != [] {
      var n := |jitters| - 1;
      WaitsWithinBand(cfg, jitters[..n]);
      OneWait(cfg, |jitters|, jitters[n]);
    }
  }

  lemma {:induction false} WidthsScale(cfg: Settings, n: nat)
    ensures WidthSum(cfg, n) == CapSum(cfg, n) * cfg.retryJitterRatio
  {
    if n > 0 {
      WidthsScale(cfg, n - 1);
      assert (CapSum(cfg, n - 1) + Capped(cfg, n)) * cfg.retryJitterRatio
          == CapSum(cfg, n - 1) * cfg.retryJitterRatio + Capped(cfg, n) * cfg.retryJitterRatio;
    }
  }

  lemma CapSides(cfg: Settings, attempt: nat)
    requires attempt >= 1
    ensures Capped(cfg, attempt) <= Geometric(cfg.retryBaseSeconds, attempt)
    ensures Capped(cfg, attempt) <= cfg.retryMaxSeconds
  {
  }

  lemma {:induction false} CapsBounded(cfg: Settings, n: nat)
    ensures CapSum(cfg, n) <= Doubling(n, cfg.retryBaseSeconds) && CapSum(cfg, n) <= Times(n, cfg.retryMaxSeconds)
  {
    if n > 0 {
      CapsBounded(cfg, n - 1);
      CapSides(cfg, n);
    }
  }

  /**
   * The waits of n failures add up to at most the capped delays plus their jitter widths, and the capped
   * delays to at most base * (2^n - 1) and n * cap; by WidthsScale the widths are `ratio` times the delays.
   */
  lemma TotalWaitBound(cfg: Settings, jitters: seq<real>)
    requires Sensible(cfg) && Draws(cfg, jitters)
    ensures var n, caps := |jitters|, CapSum(cfg, |jitters|);
            && TotalWait(cfg, jitters) <= caps + WidthSum(cfg, n)
            && caps <= Doubling(n, cfg.retryBaseSeconds) && caps <= Times(n, cfg.retryMaxSeconds)
  {
    WaitsWithinBand(cfg, jitters);
    CapsBounded(cfg, |jitters|);
  }

  lemma OneAndRatio(total: real, caps: real, widths: real, ratio: real, limit: real)
    requires total <= caps + widths && widths == caps * ratio && caps <= limit && ratio >= 0.0
    ensures total <= (1.0 + ratio) * limit
  {
    ScaleUp(1.0 + ratio, caps, limit);
    assert (1.0 + ratio) * caps == caps + caps * ratio;
  }

  /** The limit on the capped delays of `n` failures; Doubling and Times have the closed forms shown above. */
  function CapLimit(cfg: Settings, n: nat): real {
    MinReal(Doubling(n, cfg.retryBaseSeconds), Times(n, cfg.retryMaxSeconds))
  }

  lemma BandLimit(cfg: Settings, n: nat, total: real)
    requires Sensible(cfg) && total <= CapSum(cfg, n) + WidthSum(cfg, n) && CapSum(cfg, n) <= CapLimit(cfg, n)
    ensures total <= (1.0 + cfg.retryJitterRatio) * CapLimit(cfg, n)
  {
    WidthsScale(cfg, n);
    OneAndRatio(total, CapSum(cfg, n), WidthSum(cfg, n), cfg.retryJitterRatio, CapLimit(cfg, n));
  }

  /** The waits of n failures are at most (1 + ratio) * min(base * (2^n - 1), n * cap). */
  lemma TotalWaitLimit(cfg: Settings, jitters: seq<real>)
    requires Sensible(cfg) && Draws(cfg, jitters)
    ensures TotalWait(cfg, jitters) <= (1.0 + cfg.retryJitterRatio) * CapLimit(cfg, |jitters|)
  {
    TotalWaitBound(cfg, jitters);
    BandLimit(cfg, |jitters|, TotalWait(cfg, jitters));
  }

  /** `at` is a legal delay after a clock reading between the two times. */
  ghost predicate BackedOff(cfg: Settings, attempt: int, from: Time, to: Time, at: Time) {
    exists jitter :: Draw(cfg, attempt, jitter) && from <= at - Delay(cfg, attempt, jitter) <= to
  }

  // ---------- the delay in terms of the settings

  lemma DoubledMin(g: real, ceiling: real)
    requires g >= 0.0 && ceiling >= 0.0
    ensures MinReal(2.0 * g, ceiling) == MinReal(2.0 * MinReal(g, ceiling), ceiling)
  {
  }

  /** The delay before jitter starts at the base and doubles from attempt to attempt until it meets the cap. */
  lemma CappedDoubles(cfg: Settings, a: nat)
    requires Sensible(cfg) && a >= 1
    ensures Capped(cfg, 1) == if cfg.retryBaseSeconds <= cfg.retryMaxSeconds then cfg.retryBaseSeconds
                              else cfg.retryMaxSeconds
    ensures Capped(cfg, a + 1) == if 2.0 * Capped(cfg, a) <= cfg.retryMaxSeconds then 2.0 * Capped(cfg, a)
                                  else cfg.retryMaxSeconds
  {
    var base, p := cfg.retryBaseSeconds, Pow2(a - 1);
    assert Pow2(0) == 1.0 && Pow2(a) == 2.0 * p;
    assert base * (2.0 * p) == 2.0 * (base * p);
    GeometricGrows(base, a, a);
    DoubledMin(base * p, cfg.retryMaxSeconds);
  }

  /** The delay of attempt `k` before jitter: the base doubled k - 1 times, or the cap. */
  function Doubled(cfg: Settings, k: nat): real {
    if k <= 1 then (if cfg.retryBaseSeconds <= cfg.retryMaxSeconds then cfg.retryBaseSeconds else cfg.retryMaxSeconds)
    else if 2.0 * Doubled(cfg, k - 1) <= cfg.retryMaxSeconds then 2.0 * Doubled(cfg, k - 1) else cfg.retryMaxSeconds
  }

  lemma {:induction false} CappedIsDoubled(cfg: Settings, k: nat)
    requires Sensible(cfg) && k >= 1
    ensures Capped(cfg, k) == Doubled(cfg, k)
  {
    CappedDoubles(cfg, if k == 1 then 1 else k - 1);
    if k > 1 {
      CappedIsDoubled(cfg, k - 1);
    }
  }

  /** And in closed form. */
  lemma CappedIs(cfg: Settings, k: nat)
    requires k >= 1
    ensures Capped(cfg, k) == if cfg.retryBaseSeconds * Pow2(k - 1) <= cfg.retryMaxSeconds
                              then cfg.retryBaseSeconds * Pow2(k - 1) else cfg.retryMaxSeconds
  {
  }

  /** The spread of the jitter around the doubled delay. */
  function Spread(cfg: Settings, k: nat): real { Doubled(cfg, k) * cfg.retryJitterRatio }

  lemma SpreadIs(cfg: Settings, k: nat)
    requires Sensible(cfg) && k >= 1
    ensures Capped(cfg, k) == Doubled(cfg, k) >= 0.0 && Width(cfg, k) == Spread(cfg, k) >= 0.0
  {
    CappedIsDoubled(cfg, k);
    CappedGrows(cfg, k, k);
    ScaleUp(Doubled(cfg, k), 0.0, cfg.retryJitterRatio);
  }

  lemma DrawIs(cfg: Settings, k: nat, jitter: real)
    requires Sensible(cfg) && k >= 1
    ensures Spread(cfg, k) >= 0.0 && Capped(cfg, k) == Doubled(cfg, k) >= 0.0
    ensures Draw(cfg, k, jitter) <==> -Spread(cfg, k) <= jitter <= Spread(cfg, k)
  {
    SpreadIs(cfg, k);
  }

  /** Nonnegative and no further from the doubled delay than the spread. */
  predicate InBand(cfg: Settings, k: nat, d: real) {
    d >= 0.0 && Doubled(cfg, k) - Spread(cfg, k) <= d <= Doubled(cfg, k) + Spread(cfg, k)
  }

  /** The delays that can be drawn are exactly those of the band. */
  lemma DelaysExactly(cfg: Settings, k: nat, d: real)
    requires Sensible(cfg) && k >= 1
    ensures (exists jitter :: Draw(cfg, k, jitter) && Delay(cfg, k, jitter) == d) <==> InBand(cfg, k, d)
  {
    if jitter :| Draw(cfg, k, jitter) && Delay(cfg, k, jitter) == d {
      DrawIs(cfg, k, jitter);
    }
    if InBand(cfg, k, d) {
      DrawIs(cfg, k, d - Doubled(cfg, k));
      assert Draw(cfg, k, d - Doubled(cfg, k)) && Delay(cfg, k, d - Doubled(cfg, k)) == d;
    }
  }

  /** A time put off by the backoff of failure `k` lies within the spread of the doubled delay from the reading. */
  lemma BackedOffIs(cfg: Settings, k: nat, from: Time, to: Time, at: Time)
    requires Sensible(cfg) && k >= 1 && BackedOff(cfg, k, from, to, at)
    ensures from + Doubled(cfg, k) - Spread(cfg, k) <= at <= to + Doubled(cfg, k) + Spread(cfg, k)
  {
    var jitter :| Draw(cfg, k, jitter) && from <= at - Delay(cfg, k, jitter) <= to;
    DelaysExactly(cfg, k, Delay(cfg, k, jitter));
  }
}
