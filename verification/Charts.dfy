/** The arithmetic of the spend chart (frontend/src/components/charts.tsx), over real numbers. */
module Charts {
  import opened Options

  const VB_W := 640.0
  const VB_H := 210.0
  const PAD_LEFT := 46.0
  const PAD_RIGHT := 62.0
  const PAD_TOP := 14.0
  const PAD_BOTTOM := 26.0
  const PLOT_W := VB_W - PAD_LEFT - PAD_RIGHT
  const PLOT_H := VB_H - PAD_TOP - PAD_BOTTOM
  const BASELINE := PAD_TOP + PLOT_H

  // ---------------------------------------------------------------- products

  lemma LessByProduct(a: real, b: real, m: real)
    requires m > 0.0 && a * m < b * m
    ensures a < b
  {
    assert a >= b ==> a * m >= b * m;
  }

  lemma LessByIntProduct(a: int, b: int, m: int)
    requires m > 0 && a * m < b * m
    ensures a < b
  {
    assert a >= b ==> a * m >= b * m;
  }

  lemma MultiplesGrow(a: int, b: int, step: real)
    requires a <= b && step >= 0.0
    ensures a as real * step <= b as real * step
  {
    var x, y := a as real, b as real;
    assert x <= y;
    assert x * step <= y * step;
  }

  lemma NextMultiple(n: int, step: real)
    ensures (n + 1) as real * step == n as real * step + step
  {
    assert (n + 1) as real == n as real + 1.0;
    assert (n as real + 1.0) * step == n as real * step + step;
  }

  // ---------------------------------------------------------------- powers of ten

  function Pow10(e: int): (p: real)
    ensures p > 0.0
    decreases if e >= 0 then e else -e
  {
    if e == 0 then 1.0 else if e > 0 then 10.0 * Pow10(e - 1) else Pow10(e + 1) / 10.0
  }

  lemma Pow10Next(e: int)
    ensures Pow10(e + 1) == 10.0 * Pow10(e)
  {
  }

  lemma TenthIsSmaller(x: real)
    requires x >= 10.0
    ensures 0 <= (x / 10.0).Floor < x.Floor
  {
    assert x / 10.0 <= x - 9.0;
  }

  lemma InverseOfTenfold(x: real)
    requires 0.0 < x && 10.0 * x < 1.0
    ensures 1.0 / (10.0 * x) == (1.0 / x) / 10.0 && 1.0 / x >= 10.0
  {
    var y := 1.0 / x;
    assert y * x == 1.0;
    assert (y / 10.0) * (10.0 * x) == 1.0;
    assert y < 10.0 ==> y * x < 10.0 * x;
  }

  /** The floor of the decimal logarithm. */
  function FloorLog10(x: real): (e: int)
    requires x > 0.0
    ensures Pow10(e) <= x < Pow10(e + 1)
    decreases if x >= 1.0 then 0 else 1, if x >= 1.0 then x.Floor else (1.0 / x).Floor
  {
    if x >= 10.0 then
      TenthIsSmaller(x);
      var e := FloorLog10(x / 10.0);
      Pow10Next(e);
      Pow10Next(e + 1);
      e + 1
    else if x >= 1.0 then
      0
    else
      assert 10.0 * x < 1.0 ==> (1.0 / (10.0 * x)).Floor < (1.0 / x).Floor && (1.0 / (10.0 * x)).Floor >= 0 by {
        if 10.0 * x < 1.0 {
          InverseOfTenfold(x);
          TenthIsSmaller(1.0 / x);
        }
      }
      var e := FloorLog10(10.0 * x);
      Pow10Next(e);
      Pow10Next(e - 1);
      e - 1
  }

  // ---------------------------------------------------------------- ticks

  function Candidates(mag: real): seq<real> {
    [mag, 2.0 * mag, 5.0 * mag, 10.0 * mag]
  }

  predicate NiceBy(step: real, k: int, e: int) {
    0 <= k < 4 && step == Candidates(Pow10(e))[k]
  }

  ghost predicate Nice(step: real) {
    exists k, e :: NiceBy(step, k, e)
  }

  /** 1, 2, 5 or 10 times some power of ten, and no smaller such number is at least `raw`. */
  ghost predicate SmallestNice(step: real, raw: real) {
    && Nice(step) && raw <= step
    && forall s, k, e :: NiceBy(s, k, e) && raw <= s ==> step <= s
  }

  lemma {:induction false} Pow10Grows(d: int, e: int)
    requires d <= e
    ensures Pow10(d) <= Pow10(e)
    decreases e - d
  {
    if d < e {
      Pow10Grows(d, e - 1);
      Pow10Next(e - 1);
    }
  }

  /** The first candidate not below `raw` beats those of every other power of ten too. */
  lemma FirstIsSmallest(raw: real, k: int, e: int, s: real, k2: int, e2: int)
    requires 0 <= k < 4 && Pow10(e) <= raw && raw < 10.0 * Pow10(e) && raw <= Candidates(Pow10(e))[k]
    requires k > 0 ==> Candidates(Pow10(e))[k - 1] < raw
    requires NiceBy(s, k2, e2) && raw <= s
    ensures Candidates(Pow10(e))[k] <= s
  {
    if e < e2 {
      Pow10Grows(e + 1, e2);
      Pow10Next(e);
    } else if e2 < e {
      Pow10Grows(e2 + 1, e);
      Pow10Next(e2);
    }
  }

  /** The smallest of 1, 2, 5 and 10 times a power of ten that is not less than `raw`. */
  method NiceStep(raw: real) returns (step: real)
    requires raw > 0.0
    ensures SmallestNice(step, raw) && step < 2.5 * raw
  {
    var e := FloorLog10(raw);
    var mag := Pow10(e);
    Pow10Next(e);
    var candidates := Candidates(mag);
    var k := 0;
    while k < 3 && candidates[k] < raw
      invariant 0 <= k <= 3
      invariant k > 0 ==> candidates[k - 1] < raw
    {
      k := k + 1;
    }
    step := candidates[k];
    assert NiceBy(step, k, e);
    forall s, k2, e2 | NiceBy(s, k2, e2) && raw <= s ensures step <= s {
      FirstIsSmallest(raw, k, e, s, k2, e2);
    }
  }

  /** Equally spaced from zero. */
  predicate Even(ticks: seq<real>, step: real) {
    forall k :: 0 <= k < |ticks| ==> ticks[k] == k as real * step
  }

  /** Ticks for a positive maximum: the multiples of the smallest nice step that is at least a quarter
      of it, up to the first one that is not more than a thousandth of a step below it. */
  ghost predicate TicksOk(maxValue: real, ticks: seq<real>, step: real) {
    && SmallestNice(step, maxValue / 4.0) && 3 <= |ticks| <= 5 && Even(ticks, step)
    && maxValue - 0.001 * step < ticks[|ticks| - 1] <= maxValue + 0.999 * step
  }

  method NiceTicks(maxValue: real) returns (ticks: seq<real>, ghost step: real)
    ensures maxValue <= 0.0 ==> ticks == [0.0, 1.0]
    ensures maxValue > 0.0 ==> TicksOk(maxValue, ticks, step)
  {
    if maxValue <= 0.0 {
      return [0.0, 1.0], 1.0;
    }
    var rawStep := maxValue / 4.0;
    var s := NiceStep(rawStep);
    step := s;
    ticks := [];
    var v := 0.0;
    while v <= maxValue + s * 0.999
      invariant v == |ticks| as real * s && Even(ticks, s)
      invariant |ticks| > 0 ==> ticks[|ticks| - 1] == v - s && v - s <= maxValue + s * 0.999
      invariant |ticks| <= 5
      decreases 5 - |ticks|
    {
      AtMostFive(|ticks|, s, maxValue);
      NextMultiple(|ticks|, s);
      EvenSnoc(ticks, s, v);
      ticks := ticks + [v];
      v := v + s;
    }
    AtLeastThree(|ticks|, s, maxValue);
  }

  /** This leaves no choice. */
  lemma TicksAreUnique(maxValue: real, a: seq<real>, b: seq<real>, s: real, t: real)
    requires TicksOk(maxValue, a, s) && TicksOk(maxValue, b, t)
    ensures s == t && a == b
  {
    SameStep(maxValue, s, t);
    NiceIsPositive(s);
    SameTicks(maxValue, a, b, s);
  }

  lemma SameTicks(maxValue: real, a: seq<real>, b: seq<real>, step: real)
    requires step > 0.0 && |a| > 0 && |b| > 0 && Even(a, step) && Even(b, step)
    requires maxValue - 0.001 * step < a[|a| - 1] <= maxValue + 0.999 * step
    requires maxValue - 0.001 * step < b[|b| - 1] <= maxValue + 0.999 * step
    ensures a == b
  {
    var v, w := a[|a| - 1], b[|b| - 1];
    assert v < w + step && w < v + step;
    LessThanOneApart(|a| - 1, |b| - 1, step, v, w);
    LessThanOneApart(|b| - 1, |a| - 1, step, w, v);
  }

  lemma LessThanOneApart(m: int, n: int, step: real, v: real, w: real)
    requires step > 0.0 && v == m as real * step && w == n as real * step && v < w + step
    ensures m <= n
  {
    NextMultiple(n, step);
    if m > n {
      MultiplesGrow(n + 1, m, step);
    }
  }

  lemma SameStep(maxValue: real, s: real, t: real)
    requires SmallestNice(s, maxValue / 4.0) && SmallestNice(t, maxValue / 4.0)
    ensures s == t
  {
    var k, e :| NiceBy(s, k, e);
    var k2, e2 :| NiceBy(t, k2, e2);
  }

  lemma EvenSnoc(ticks: seq<real>, step: real, v: real)
    requires Even(ticks, step) && v == |ticks| as real * step
    ensures Even(ticks + [v], step)
  {
  }

  lemma AtMostFive(n: nat, s: real, maxValue: real)
    requires s > 0.0 && maxValue <= 4.0 * s && n as real * s <= maxValue + s * 0.999
    ensures n <= 4
  {
    assert n >= 5 ==> n as real * s >= 5.0 * s;
  }

  lemma AtLeastThree(n: nat, s: real, maxValue: real)
    requires s > 0.0 && maxValue * 2.5 > 4.0 * s && n as real * s > maxValue + s * 0.999
    ensures n >= 3
  {
    assert n <= 2 ==> n as real * s <= 2.0 * s;
  }

  // ---------------------------------------------------------------- scales

  function Y(v: real, yMax: real): real
    requires yMax > 0.0
  {
    PAD_TOP + PLOT_H - (v / yMax) * PLOT_H
  }

  lemma RatioBelow(v: real, yMax: real, bound: real)
    requires yMax > 0.0 && v < bound * yMax
    ensures v / yMax < bound
  {
    var r := v / yMax;
    assert v == r * yMax;
    LessByProduct(r, bound, yMax);
  }

  lemma RatioSign(v: real, yMax: real)
    requires yMax > 0.0
    ensures v >= 0.0 <==> v / yMax >= 0.0
    ensures v > yMax <==> v / yMax > 1.0
  {
    var r := v / yMax;
    assert v == r * yMax;
    assert r > 1.0 ==> r * yMax > yMax;
    assert r <= 1.0 ==> r * yMax <= yMax;
    assert r < 0.0 ==> r * yMax < 0.0;
    assert r >= 0.0 ==> r * yMax >= 0.0;
  }

  /** No value up to the maximum is drawn more than a two-thousandth of the plot above it, and none is
      drawn below the baseline unless it is negative. */
  lemma YStaysNearTheBand(maxValue: real, ticks: seq<real>, step: real, v: real)
    requires maxValue > 0.0 && TicksOk(maxValue, ticks, step) && v <= maxValue
    ensures var yMax := ticks[|ticks| - 1];
            yMax > 0.0 && Y(v, yMax) > PAD_TOP - PLOT_H / 2000.0 && (Y(v, yMax) <= BASELINE <==> v >= 0.0)
  {
    TopIsTwoSteps(maxValue, ticks, step);
    var yMax := ticks[|ticks| - 1];
    RatioBelow(v, yMax, 1.0005);
    RatioSign(v, yMax);
  }

  lemma TopIsTwoSteps(maxValue: real, ticks: seq<real>, step: real)
    requires TicksOk(maxValue, ticks, step)
    ensures step > 0.0 && ticks[|ticks| - 1] >= 2.0 * step
  {
    NiceIsPositive(step);
    MultiplesGrow(2, |ticks| - 1, step);
  }

  lemma NiceIsPositive(step: real)
    requires Nice(step)
    ensures step > 0.0
  {
    var k, e :| NiceBy(step, k, e);
    assert Pow10(e) > 0.0;
  }

  /** A little more than the n-th multiple of the step. */
  predicate JustAbove(n: nat, step: real, v: real) {
    n as real * step < v < n as real * step + 0.001 * step
  }

  /** The highest point leaves the plot exactly when the maximum exceeds a multiple of the step by less
      than a thousandth of it. */
  lemma OvershootsIff(maxValue: real, ticks: seq<real>, step: real)
    requires maxValue > 0.0 && TicksOk(maxValue, ticks, step)
    ensures var yMax := ticks[|ticks| - 1];
            yMax > 0.0 && (Y(maxValue, yMax) < PAD_TOP <==>
                             exists n: nat :: JustAbove(n, step, maxValue))
  {
    TopIsTwoSteps(maxValue, ticks, step);
    var n, yMax := |ticks| - 1, ticks[|ticks| - 1];
    assert yMax == n as real * step;
    RatioSign(maxValue, yMax);
    forall m: nat | JustAbove(m, step, maxValue) ensures yMax < maxValue {
      SameMultiple(m, n, step, maxValue);
    }
    if Y(maxValue, yMax) < PAD_TOP {
      assert JustAbove(n, step, maxValue);
    }
  }

  lemma SameMultiple(m: nat, n: nat, step: real, maxValue: real)
    requires step > 0.0
    requires JustAbove(m, step, maxValue)
    requires maxValue - 0.001 * step < n as real * step <= maxValue + 0.999 * step
    ensures m == n
  {
    var v, w := m as real * step, n as real * step;
    assert v < w + step && w < v + step;
    LessThanOneApart(m, n, step, v, w);
    LessThanOneApart(n, m, step, w, v);
  }

  /** It does happen: for 4.001 the ticks are 0, 2 and 4. */
  lemma OvershootHappens()
    ensures TicksOk(4.001, [0.0, 2.0, 4.0], 2.0) && Y(4.001, 4.0) < PAD_TOP
  {
    assert Pow10(0) == 1.0;
    assert NiceBy(2.0, 1, 0);
    forall s, k, e | NiceBy(s, k, e) && 4.001 / 4.0 <= s ensures 2.0 <= s {
      FirstIsSmallest(4.001 / 4.0, 1, 0, s, k, e);
    }
  }

  function X(i: int, n: nat): real {
    if n <= 1 then PAD_LEFT + PLOT_W / 2.0 else PAD_LEFT + (i as real / (n - 1) as real) * PLOT_W
  }

  lemma XGrows(i: int, j: int, n: nat)
    requires 0 <= i < j < n
    ensures X(i, n) < X(j, n)
    ensures PAD_LEFT <= X(i, n) && X(j, n) <= PAD_LEFT + PLOT_W
  {
    var a, b, w := i as real / (n - 1) as real, j as real / (n - 1) as real, (n - 1) as real;
    assert a * w == i as real && b * w == j as real;
    assert a >= b ==> a * w >= b * w;
    assert b > 1.0 ==> b * w > w;
    assert a < 0.0 ==> a * w < 0.0;
  }

  /** The points are spread evenly from one edge of the plot, at 46, to the other, at 578. */
  lemma XIsEven(i: int, n: nat)
    requires 0 <= i && i + 1 < n
    ensures X(0, n) == 46.0 && X(n - 1, n) == 578.0
    ensures (X(i + 1, n) - X(i, n)) * (n - 1) as real == 532.0
  {
    var w := (n - 1) as real;
    var a, b := i as real / w, (i + 1) as real / w;
    assert a * w == i as real && b * w == (i + 1) as real == i as real + 1.0;
    assert (b - a) * w == 1.0;
    assert X(i + 1, n) - X(i, n) == (b - a) * 532.0;
    assert ((b - a) * 532.0) * w == ((b - a) * w) * 532.0;
    assert w / w == 1.0 && 0.0 / w == 0.0;
  }

  /** A single point stands in the middle. */
  lemma OnePointInTheMiddle()
    ensures X(0, 1) == 312.0 && X(0, 1) - 46.0 == 578.0 - X(0, 1)
  {
  }

  /** Zero is drawn on the baseline, at 184, the top tick at 14, and heights are in proportion. */
  lemma YIsProportional(v: real, yMax: real)
    requires yMax > 0.0
    ensures Y(0.0, yMax) == 184.0 && Y(yMax, yMax) == 14.0
    ensures (184.0 - Y(v, yMax)) * yMax == 170.0 * v
  {
    var r := v / yMax;
    assert r * yMax == v;
    assert (r * 170.0) * yMax == (r * yMax) * 170.0;
  }

  // ---------------------------------------------------------------- hovering

  function Abs(x: real): real {
    if x < 0.0 then -x else x
  }

  /** The first of the points nearest to a position. */
  predicate FirstNearest(n: nat, xView: real, best: int) {
    && 0 <= best < n
    && (forall i :: 0 <= i < n ==> Abs(X(best, n) - xView) <= Abs(X(i, n) - xView))
    && (forall i :: 0 <= i < best ==> Abs(X(best, n) - xView) < Abs(X(i, n) - xView))
  }

  /** In a chart of no width every distance is infinite or undefined, and the first point is kept. */
  method PickNearest(n: nat, clientX: real, left: real, width: real) returns (best: Option<int>)
    ensures best == None <==> n == 0
    ensures n > 0 && width != 0.0 ==> FirstNearest(n, ((clientX - left) / width) * VB_W, best.value)
    ensures n > 0 && width == 0.0 ==> best == Some(0)
  {
    if n == 0 {
      return None;
    }
    if width == 0.0 {
      return Some(0);
    }
    var xView := ((clientX - left) / width) * VB_W;
    var nearest := 0;
    var bestDist := None;
    for i := 0 to n
      invariant 0 <= nearest < n && (i == 0 <==> bestDist == None)
      invariant i > 0 ==> nearest < i && bestDist == Some(Abs(X(nearest, n) - xView))
      invariant forall j :: 0 <= j < i ==> bestDist.value <= Abs(X(j, n) - xView)
      invariant forall j :: 0 <= j < nearest ==> bestDist.Some? && bestDist.value < Abs(X(j, n) - xView)
    {
      var d := Abs(X(i, n) - xView);
      if bestDist == None || d < bestDist.value {
        bestDist := Some(d);
        nearest := i;
      }
    }
    return Some(nearest);
  }

  /** Hovering over a point picks that point. */
  lemma NearestInvertsX(n: nat, i: int, best: int)
    requires 0 <= i < n && FirstNearest(n, X(i, n), best)
    ensures best == i
  {
    assert Abs(X(best, n) - X(i, n)) <= Abs(X(i, n) - X(i, n));
    if best < i {
      XGrows(best, i, n);
    } else if i < best {
      XGrows(i, best, n);
    }
  }

  // ---------------------------------------------------------------- x labels

  function Stride(n: nat): (s: nat)
    ensures s >= 1
  {
    var ceil := (n + 4) / 5;
    if ceil < 1 then 1 else ceil
  }

  /** The stride is the smallest positive number of which five cover all points. */
  lemma StrideIsSmallest(n: nat, s: nat)
    ensures 1 <= Stride(n) && n <= 5 * Stride(n)
    ensures 1 <= s && n <= 5 * s ==> Stride(n) <= s
  {
  }

  /** The labelled indices below `k`. */
  function Labels(n: nat, k: nat): seq<nat>
    requires k <= n
  {
    if k == 0 then []
    else Labels(n, k - 1) + if (k - 1) % Stride(n) == 0 || k - 1 == n - 1 then [k - 1] else []
  }

  lemma {:induction false} LabelsAre(n: nat, k: nat, i: nat)
    requires k <= n
    ensures i in Labels(n, k) <==> i < k && (i % Stride(n) == 0 || i == n - 1)
  {
    if k > 0 {
      LabelsAre(n, k - 1, i);
    }
  }

  lemma {:induction false} LabelsIncrease(n: nat, k: nat, a: nat, b: nat)
    requires k <= n && a < b < |Labels(n, k)|
    ensures Labels(n, k)[a] < Labels(n, k)[b]
  {
    var before := Labels(n, k - 1);
    if b < |before| {
      LabelsIncrease(n, k - 1, a, b);
    } else {
      assert before[a] in before;
      LabelsAre(n, k - 1, before[a]);
    }
  }

  lemma {:induction false} LabelsAreFew(n: nat, k: nat)
    requires k < n
    ensures |Labels(n, k)| == (k + Stride(n) - 1) / Stride(n)
  {
    var s := Stride(n);
    if k > 0 {
      LabelsAreFew(n, k - 1);
      CeilStep(k - 1, s);
    } else {
      assert (s - 1) / s == 0;
    }
  }

  lemma CeilStep(k: nat, s: nat)
    requires s >= 1
    ensures (k + 1 + s - 1) / s == (k + s - 1) / s + if k % s == 0 then 1 else 0
  {
    var q, r := k / s, k % s;
    assert k == q * s + r;
    if r == 0 {
      assert k + s == (q + 1) * s;
      QuotientIs(k + s, s, q + 1);
      QuotientIs(k + s - 1, s, q);
    } else {
      QuotientIs(k + s, s, q + 1);
      QuotientIs(k + s - 1, s, q + 1);
    }
  }

  lemma QuotientIs(a: nat, s: nat, q: nat)
    requires s >= 1 && q * s <= a < q * s + s
    ensures a / s == q
  {
    var d := a / s;
    assert a == d * s + a % s;
    LessByIntProduct(d, q + 1, s);
    LessByIntProduct(q, d + 1, s);
  }

  /** The first and the last point are always labelled, and there are never more than six labels. */
  lemma EndsAreLabelled(n: nat)
    requires n > 0
    ensures 0 in Labels(n, n) && (n - 1) in Labels(n, n) && 1 <= |Labels(n, n)| <= 6
  {
    LabelsAre(n, n, 0);
    LabelsAre(n, n, n - 1);
    LabelsAreFew(n, n - 1);
    StrideIsSmallest(n, 1);
    FewStrides(n - 1, Stride(n));
  }

  lemma FewStrides(k: nat, s: nat)
    requires s >= 1 && k < 5 * s
    ensures (k + s - 1) / s <= 5
  {
    var q := (k + s - 1) / s;
    assert q * s + (k + s - 1) % s == k + s - 1;
    LessByIntProduct(q, 6, s);
  }
}
