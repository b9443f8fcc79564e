/** The Wilson interval and the stop rule built on it: eval/ablation/stats.ts, in exact
    arithmetic. A square root is any non-negative number with the right square. */
module Wilson {
  const LOAD_BEARING_DROP := 0.2
  const Z := 1.96

  datatype Interval = Interval(p: real, lo: real, hi: real)

  datatype Counts = Counts(passes: nat, n: nat)

  datatype Decision = Continue | Done | DropCertain | NoDropCertain | Floor

  ghost predicate IsRoot(s: real, x: real) {
    s >= 0.0 && s * s == x
  }

  /** The radicand of the half width. */
  function Radicand(passes: nat, n: nat, z: real): real
    requires n > 0
  {
    var p := passes as real / n as real;
    p * (1.0 - p) / n as real + z * z / (4.0 * n as real * n as real)
  }

  function Center(passes: nat, n: nat, z: real): real
    requires n > 0
  {
    NonZero(n, z);
    (passes as real / n as real + z * z / (2.0 * n as real)) / (1.0 + z * z / n as real)
  }

  function Half(root: real, n: nat, z: real): real
    requires n > 0
  {
    NonZero(n, z);
    z * root / (1.0 + z * z / n as real)
  }

  lemma NonZero(n: nat, z: real)
    requires n > 0
    ensures z * z / n as real >= 0.0 && 1.0 + z * z / n as real > 0.0
  {
    assert z * z >= 0.0;
    Quotient(z * z, n as real);
  }

  lemma Quotient(a: real, b: real)
    requires a >= 0.0 && b > 0.0
    ensures a / b >= 0.0
  {
    var q := a / b;
    assert q * b == a && 0.0 * b == 0.0;
    CancelLe(0.0, q, b);
  }

  function MathMax(a: real, b: real): real {
    if a < b then b else a
  }

  function MathMin(a: real, b: real): real {
    if b < a then b else a
  }

  /** `wilson`: for no samples the whole range, and no rate; 0 stands for it here. */
  function WilsonOf(passes: nat, n: nat, z: real, root: real): Interval {
    if n == 0 then Interval(0.0, 0.0, 1.0)
    else
      Interval(passes as real / n as real, MathMax(0.0, Center(passes, n, z) - Half(root, n, z)),
               MathMin(1.0, Center(passes, n, z) + Half(root, n, z)))
  }

  // ---- the bounds ----

  lemma SquareLe(a: real, b: real)
    requires b >= 0.0 && a * a <= b * b
    ensures a <= b
  {
    assert (a - b) * (a + b) == a * a - b * b;
    if a > b { PositiveProduct(a - b, a + b); }
  }

  lemma PositiveProduct(a: real, b: real)
    requires a > 0.0 && b > 0.0
    ensures a * b > 0.0
  {}

  /** The four comparisons, cleared of the common denominator 1 + w. */
  lemma Cleared(p: real, w: real, t: real)
    requires 0.0 <= p <= 1.0 && w > 0.0 && t >= 0.0 && t * t == w * p * (1.0 - p) + w * w / 4.0
    ensures 0.0 <= p + w / 2.0 - t <= p * (1.0 + w) <= p + w / 2.0 + t <= 1.0 + w
  {
    LowerEnd(p, 1.0 - p, w, t);
    Commute(w, p, 1.0 - p);
    LowerEnd(1.0 - p, p, w, t);
    Inside(p, w, t);
  }

  lemma LowerEnd(p: real, q: real, w: real, t: real)
    requires p >= 0.0 && q == 1.0 - p && w > 0.0 && t * t == w * p * q + w * w / 4.0
    ensures t <= p + w / 2.0
  {
    SquareOf(p, q, w);
    SquareLe(t, p + w / 2.0);
  }

  lemma Inside(p: real, w: real, t: real)
    requires 0.0 <= p <= 1.0 && w > 0.0 && t >= 0.0 && t * t == w * p * (1.0 - p) + w * w / 4.0
    ensures p + w / 2.0 - t <= p * (1.0 + w) <= p + w / 2.0 + t
  {
    Middle(p, w, t);
    SquareLe(w * (0.5 - p), t);
    SquareLe(w * (p - 0.5), t);
    assert w * (0.5 - p) == w / 2.0 - w * p && w * (p - 0.5) == w * p - w / 2.0;
    assert p * (1.0 + w) == p + w * p;
  }

  lemma Commute(a: real, b: real, c: real)
    ensures a * b * c == a * c * b
  {}

  lemma SquareOf(p: real, q: real, w: real)
    requires p >= 0.0 && q == 1.0 - p && w > 0.0
    ensures (p + w / 2.0) * (p + w / 2.0) >= w * p * q + w * w / 4.0
  {
    assert (p + w / 2.0) * (p + w / 2.0) == p * p + p * w + w * w / 4.0;
    assert w * p * q == w * p - w * (p * p);
    assert p * p >= 0.0;
    Product(w, p * p);
  }

  lemma Product(a: real, b: real)
    requires a >= 0.0 && b >= 0.0
    ensures a * b >= 0.0
  {}

  lemma Middle(p: real, w: real, t: real)
    requires 0.0 <= p <= 1.0 && w > 0.0 && t * t == w * p * (1.0 - p) + w * w / 4.0
    ensures (w * (0.5 - p)) * (w * (0.5 - p)) <= t * t
    ensures (w * (p - 0.5)) * (w * (p - 0.5)) <= t * t
  {
    var u := p * (1.0 - p);
    assert u >= 0.0 by { Product(p, 1.0 - p); }
    assert (0.5 - p) * (0.5 - p) == 0.25 - u;
    assert (w * (0.5 - p)) * (w * (0.5 - p)) == (w * w) * ((0.5 - p) * (0.5 - p));
    assert (w * w) * (0.25 - u) == w * w / 4.0 - w * w * u;
    Product(w * w, u);
    Product(w, u);
    assert w * p * (1.0 - p) == w * u;
    assert w * (p - 0.5) == -(w * (0.5 - p));
  }

  /** What the source's quotients are, with w for z squared over n. */
  lemma Quotients(passes: nat, n: nat, z: real, root: real) returns (p: real, w: real, t: real)
    requires passes <= n && n > 0 && z > 0.0 && IsRoot(root, Radicand(passes, n, z))
    ensures p == passes as real / n as real && 0.0 <= p <= 1.0 && w > 0.0 && t == z * root
    ensures w == Width(n, z)
    ensures t >= 0.0 && t * t == w * p * (1.0 - p) + w * w / 4.0
    ensures Center(passes, n, z) == (p + w / 2.0) / (1.0 + w) && Half(root, n, z) == t / (1.0 + w)
  {
    hide Center, Half, Radicand, IsRoot;
    p := passes as real / n as real;
    RateInUnit(passes, n);
    w := Width(n, z);
    WidthPositive(n, z);
    t := z * root;
    RootPositive(root, Radicand(passes, n, z));
    Product(z, root);
    CenterForm(passes, n, z);
    HalfForm(root, n, z);
    RadicandForm(passes, n, z, root);
  }

  function Width(n: nat, z: real): real
    requires n > 0
  {
    z * z / n as real
  }

  lemma WidthPositive(n: nat, z: real)
    requires n > 0 && z > 0.0
    ensures Width(n, z) > 0.0
  {
    var zz := z * z;
    ProductIsPositive(z, z, zz);
    PositiveQuotient(zz, n as real);
  }

  lemma ProductIsPositive(x: real, y: real, product: real)
    requires x > 0.0 && y > 0.0 && product == x * y
    ensures product > 0.0
  {}

  lemma RootPositive(root: real, x: real)
    requires IsRoot(root, x)
    ensures root >= 0.0
  {}

  lemma CenterForm(passes: nat, n: nat, z: real)
    requires n > 0
    ensures 1.0 + Width(n, z) > 0.0
    ensures Center(passes, n, z) == (passes as real / n as real + Width(n, z) / 2.0) / (1.0 + Width(n, z))
  {
    NonZero(n, z);
    HalfOf(z * z, n as real, Width(n, z), z * z / (2.0 * n as real));
  }

  lemma HalfForm(root: real, n: nat, z: real)
    requires n > 0
    ensures 1.0 + Width(n, z) > 0.0 && Half(root, n, z) == z * root / (1.0 + Width(n, z))
  {
    NonZero(n, z);
  }

  lemma RadicandForm(passes: nat, n: nat, z: real, root: real)
    requires n > 0 && IsRoot(root, Radicand(passes, n, z))
    ensures var p, w, t := passes as real / n as real, Width(n, z), z * root;
      t * t == w * p * (1.0 - p) + w * w / 4.0
  {
    SquareOfRoot(passes as real / n as real, n as real, z, Width(n, z), root);
  }

  lemma PositiveQuotient(a: real, b: real)
    requires a > 0.0 && b > 0.0
    ensures a / b > 0.0
  {
    var q := a / b;
    assert q * b == a && 0.0 * b == 0.0;
    CancelLe(0.0, q, b);
  }

  lemma HalfOf(a: real, m: real, w: real, c: real)
    requires m > 0.0 && w == a / m && c == a / (2.0 * m)
    ensures c == w / 2.0
  {
    assert w * m == a;
    assert c * (2.0 * m) == a;
    assert (2.0 * c) * m == c * (2.0 * m);
    Cancel(2.0 * c, w, m);
  }

  lemma QuarterOf(a: real, m: real, w: real, r: real)
    requires m > 0.0 && w == a / m && r == a / (4.0 * m * m)
    ensures r * m == w / 4.0
  {
    PositiveProduct(m, m);
    assert w * m == a;
    assert r * (4.0 * m * m) == a;
    assert (r * (4.0 * m)) * m == r * (4.0 * m * m);
    Cancel(r * (4.0 * m), w, m);
    assert r * (4.0 * m) == 4.0 * (r * m);
  }

  lemma SquareOfRoot(p: real, m: real, z: real, w: real, root: real)
    requires m > 0.0 && w == z * z / m && root * root == p * (1.0 - p) / m + z * z / (4.0 * m * m)
    ensures (z * root) * (z * root) == w * p * (1.0 - p) + w * w / 4.0
  {
    var u := p * (1.0 - p);
    var r1, r2 := u / m, z * z / (4.0 * m * m);
    QuarterOf(z * z, m, w, r2);
    assert r1 * m == u;
    Regroup(z, root, w, m, r1, r2);
    assert w * (w / 4.0) == w * w / 4.0;
    assert w * u == w * p * (1.0 - p);
  }

  lemma Regroup(z: real, root: real, w: real, m: real, r1: real, r2: real)
    requires z * z == w * m && root * root == r1 + r2
    ensures (z * root) * (z * root) == w * (r1 * m) + w * (r2 * m)
  {
    assert (z * root) * (z * root) == (z * z) * (root * root);
    assert (w * m) * (r1 + r2) == (w * m) * r1 + (w * m) * r2;
    assert (w * m) * r1 == w * (r1 * m) && (w * m) * r2 == w * (r2 * m);
  }

  lemma RateInUnit(passes: nat, n: nat)
    requires passes <= n && n > 0
    ensures 0.0 <= passes as real / n as real <= 1.0
  {
    var p := passes as real / n as real;
    assert p * n as real == passes as real && 0.0 * n as real == 0.0 && 1.0 * n as real == n as real;
    CancelLe(0.0, p, n as real);
    CancelLe(p, 1.0, n as real);
  }

  lemma Cancel(a: real, b: real, m: real)
    requires m > 0.0 && a * m == b * m
    ensures a == b
  {
    assert (a - b) * m == 0.0;
  }

  lemma CancelLe(a: real, b: real, d: real)
    requires d > 0.0 && a * d <= b * d
    ensures a <= b
  {
    assert (a - b) * d == a * d - b * d;
    if a > b { PositiveProduct(a - b, d); }
  }

  /** Before clamping, the interval lies between 0 and 1 and holds the observed rate, so the
      clamps change nothing. */
  lemma WilsonBound(passes: nat, n: nat, z: real, root: real)
    requires passes <= n && n > 0 && z > 0.0 && IsRoot(root, Radicand(passes, n, z))
    ensures var c, h, p := Center(passes, n, z), Half(root, n, z), passes as real / n as real;
      && 0.0 <= c - h <= p <= c + h <= 1.0
      && WilsonOf(passes, n, z, root) == Interval(p, c - h, c + h)
  {
    hide Center, Half, Radicand, IsRoot, Width;
    var p, w, t := Quotients(passes, n, z, root);
    InUnit(p, w, t);
  }

  lemma InUnit(p: real, w: real, t: real)
    requires 0.0 <= p <= 1.0 && w > 0.0 && t >= 0.0 && t * t == w * p * (1.0 - p) + w * w / 4.0
    ensures var c, h := (p + w / 2.0) / (1.0 + w), t / (1.0 + w);
      0.0 <= c - h <= p <= c + h <= 1.0
  {
    Cleared(p, w, t);
    Scale(p + w / 2.0, t, p, 1.0 + w);
  }

  lemma Scale(a: real, t: real, p: real, d: real)
    requires d > 0.0 && 0.0 <= a - t <= p * d <= a + t <= d
    ensures 0.0 <= a / d - t / d <= p <= a / d + t / d <= 1.0
  {
    var x, y := a / d, t / d;
    assert x * d == a && y * d == t;
    assert (x - y) * d == a - t && (x + y) * d == a + t && 0.0 * d == 0.0 && 1.0 * d == d;
    CancelLe(0.0, x - y, d);
    CancelLe(x - y, p, d);
    CancelLe(p, x + y, d);
    CancelLe(x + y, 1.0, d);
  }

  // ---- what the interval is ----

  /** The observed pass rate. */
  function Rate(c: Counts): real
    requires c.n > 0
  {
    c.passes as real / c.n as real
  }

  /** The score test does not reject `x` as the true rate: the count is within z standard
      deviations of what `x` would make it. */
  predicate Plausible(c: Counts, z: real, x: real) {
    var n, off := c.n as real, c.passes as real - c.n as real * x;
    0.0 <= x <= 1.0 && off * off <= n * (z * z) * (x * (1.0 - x))
  }

  /** The same for a rate p and w for z squared over the sample size. */
  predicate Passes(p: real, w: real, x: real) {
    (p - x) * (p - x) <= w * (x * (1.0 - x))
  }

  predicate Within(a: real, t: real, d: real, x: real) {
    a - t <= d * x <= a + t
  }

  lemma FiveTerms(p: real, w: real, x: real, y: real)
    requires y == (1.0 + w) * x - (p + w / 2.0)
    ensures y * y - (w * p * (1.0 - p) + w * w / 4.0) == (1.0 + w) * ((p - x) * (p - x) - w * (x * (1.0 - x)))
  {
    var d, a := 1.0 + w, p + w / 2.0;
    var q := (p - x) * (p - x) - w * (x * (1.0 - x));
    SquareOfDifference(p, x);
    SquareOfDifference(d * x, a);
    SquareOfSum(p, w / 2.0);
    var wx, pw, xx, pp := w * x, p * w, x * x, p * p;
    assert w * (x * (1.0 - x)) == wx - w * xx by { Spread(w, x); }
    assert q == pp - 2.0 * (p * x) - wx + d * xx;
    assert d * q == d * pp - d * (2.0 * (p * x) + wx) + d * (d * xx) by { Three(d, pp, 2.0 * (p * x) + wx, d * xx); }
    assert 2.0 * (d * x * a) == d * (2.0 * (p * x) + wx) by { Twice(d, x, p, w); }
    assert (d * x) * (d * x) == d * (d * xx) by { Pull(d, x); }
    assert w * p * (1.0 - p) == pw - w * pp by { Spread(w, p); Commute(w, p, 1.0 - p); }
    assert d * pp == pp + w * pp;
  }

  lemma SquareOfDifference(a: real, b: real)
    ensures (a - b) * (a - b) == a * a - 2.0 * (a * b) + b * b
  {}

  lemma SquareOfSum(a: real, b: real)
    ensures (a + b) * (a + b) == a * a + 2.0 * (a * b) + b * b
  {}

  lemma Spread(a: real, b: real)
    ensures a * (b * (1.0 - b)) == a * b - a * (b * b) && a * b * (1.0 - b) == a * (b * (1.0 - b))
  {}

  lemma Three(d: real, a: real, b: real, c: real)
    ensures d * (a - b + c) == d * a - d * b + d * c
  {}

  lemma Twice(d: real, x: real, p: real, w: real)
    ensures 2.0 * (d * x * (p + w / 2.0)) == d * (2.0 * (p * x) + w * x)
  {
    var u := d * x;
    assert u * (p + w / 2.0) == u * p + u * w / 2.0;
    Swap(d, x, p);
    Swap(d, x, w);
    assert d * (2.0 * (p * x) + w * x) == 2.0 * (d * (p * x)) + d * (w * x);
  }

  lemma Swap(d: real, x: real, p: real)
    ensures d * x * p == d * (p * x)
  {}

  lemma Pull(d: real, x: real)
    ensures (d * x) * (d * x) == d * (d * (x * x))
  {}

  /** The quadratic inequality solved. */
  lemma Solved(p: real, w: real, t: real, x: real)
    requires w > 0.0 && t >= 0.0 && t * t == w * p * (1.0 - p) + w * w / 4.0
    ensures Passes(p, w, x) <==> Within(p + w / 2.0, t, 1.0 + w, x)
  {
    var y := (1.0 + w) * x - (p + w / 2.0);
    var q := (p - x) * (p - x) - w * (x * (1.0 - x));
    FiveTerms(p, w, x, y);
    SignOf(1.0 + w, q);
    Between(y, t);
  }

  lemma SignOf(d: real, q: real)
    requires d > 0.0
    ensures d * q <= 0.0 <==> q <= 0.0
  {
    if q > 0.0 { PositiveProduct(d, q); } else { Product(d, -q); }
  }

  lemma Between(y: real, t: real)
    requires t >= 0.0
    ensures y * y - t * t <= 0.0 <==> -t <= y <= t
  {
    var difference := y * y - t * t;
    SquaresApart(y, t);
    if y > t {
      ProductIsPositive(y - t, y + t, difference);
    } else if y < -t {
      ProductIsPositive(t - y, -t - y, difference);
    } else {
      Product(t - y, y + t);
    }
  }

  lemma SquaresApart(y: real, t: real)
    ensures y * y - t * t == (y - t) * (y + t) == (t - y) * (-t - y) == -((t - y) * (y + t))
  {}

  /** Cleared of the sample size. */
  lemma PerSample(passes: real, n: real, z: real, p: real, w: real, x: real)
    requires n > 0.0 && passes == p * n && z * z == w * n
    ensures (passes - n * x) * (passes - n * x) <= n * (z * z) * (x * (1.0 - x)) <==>
            Passes(p, w, x)
  {
    var a, u := p - x, x * (1.0 - x);
    assert passes - n * x == n * a;
    Pull(n, a);
    Scaled(n, w, u);
    Difference(n, a * a, w * u);
    var nn := n * n;
    ProductIsPositive(n, n, nn);
    SignOf(nn, a * a - w * u);
  }

  lemma Scaled(n: real, w: real, u: real)
    ensures n * (w * n) * u == n * (n * (w * u))
  {}

  lemma Difference(n: real, a: real, b: real)
    ensures n * (n * a) - n * (n * b) == n * n * (a - b)
  {}

  /** The interval holds exactly the rates the score test does not reject; without samples that is
      every rate. */
  lemma IntervalIsPlausible(c: Counts, z: real, root: real, x: real)
    requires c.passes <= c.n && z > 0.0 && (c.n > 0 ==> IsRoot(root, Radicand(c.passes, c.n, z)))
    ensures var i := WilsonOf(c.passes, c.n, z, root);
      i.lo <= i.hi && (Plausible(c, z, x) <==> i.lo <= x <= i.hi)
  {
    hide Center, Half, Radicand, Plausible, Passes, Within, IsRoot, Width;
    if c.n > 0 {
      WilsonBound(c.passes, c.n, z, root);
      var p, w, t := Quotients(c.passes, c.n, z, root);
      Solved(p, w, t, x);
      TestPerSample(c, z, p, w, x);
      Ends(p + w / 2.0, t, 1.0 + w, x);
    } else {
      NoSamples(c, z, x);
    }
  }

  lemma NoSamples(c: Counts, z: real, x: real)
    requires c.n == 0 && c.passes == 0
    ensures Plausible(c, z, x) <==> 0.0 <= x <= 1.0
  {
    assert 0.0 * (z * z) == 0.0;
  }

  lemma TestPerSample(c: Counts, z: real, p: real, w: real, x: real)
    requires c.n > 0 && p == Rate(c) && w == Width(c.n, z)
    ensures Plausible(c, z, x) <==> 0.0 <= x <= 1.0 && Passes(p, w, x)
  {
    Restored(c.passes as real, c.n as real, p);
    Restored(z * z, c.n as real, w);
    PerSample(c.passes as real, c.n as real, z, p, w, x);
  }

  lemma Restored(a: real, b: real, q: real)
    requires b > 0.0 && q == a / b
    ensures q * b == a
  {}

  lemma Ends(a: real, t: real, d: real, x: real)
    requires d > 0.0
    ensures a / d - t / d <= x <= a / d + t / d <==> Within(a, t, d, x)
  {
    var u, v := a / d, t / d;
    assert u * d == a && v * d == t;
    SignOf(d, u - v - x);
    SignOf(d, x - u - v);
    assert d * (u - v - x) == a - t - d * x && d * (x - u - v) == d * x - a - t;
  }

  // ---- stopping ----

  /** `stopDecision`; the roots are those of the baseline's and the cell's interval. */
  function StopDecision(cell: Counts, baseline: Counts, hasBaseline: bool, isBaseline: bool, k: nat, minN: nat,
                        baselineRoot: real, cellRoot: real): Decision {
    if cell.n >= k then Done
    else if isBaseline then Continue
    else if !hasBaseline || baseline.n < minN then Continue
    else
      var b := WilsonOf(baseline.passes, baseline.n, Z, baselineRoot);
      if b.hi < LOAD_BEARING_DROP || (baseline.n >= k && b.p < LOAD_BEARING_DROP) then Floor
      else if cell.n < minN || baseline.n == 0 then Continue  // no comparison with a missing rate holds
      else
        var v := WilsonOf(cell.passes, cell.n, Z, cellRoot);
        var threshold := b.p - LOAD_BEARING_DROP;
        if v.hi < threshold then DropCertain else if v.lo > threshold then NoDropCertain else Continue
  }

  /** Its samples make every plausible rate less than `bound`, or more than it. */
  ghost predicate SurelyBelow(c: Counts, bound: real) {
    forall x | Plausible(c, 1.96, x) :: x < bound
  }

  ghost predicate SurelyAbove(c: Counts, bound: real) {
    forall x | Plausible(c, 1.96, x) :: x > bound
  }

  lemma EndsDecide(c: Counts, root: real, bound: real)
    requires c.passes <= c.n && (c.n > 0 ==> Sampled(c, root))
    ensures SurelyBelow(c, bound) <==> WilsonOf(c.passes, c.n, Z, root).hi < bound
    ensures SurelyAbove(c, bound) <==> WilsonOf(c.passes, c.n, Z, root).lo > bound
  {
    hide WilsonOf, Plausible, Radicand, IsRoot;
    var i := WilsonOf(c.passes, c.n, Z, root);
    IntervalIsPlausible(c, Z, root, i.lo);
    IntervalIsPlausible(c, Z, root, i.hi);
    forall x | Plausible(c, 1.96, x) ensures i.lo <= x <= i.hi { IntervalIsPlausible(c, Z, root, x); }
  }

  /** When exactly a cell stops. It is done at k samples. A variant is compared once the baseline
      has minN: it is skipped if every plausible rate of the baseline is below 0.2, or its rate is
      once it is complete; and with minN samples of its own it stops as soon as every plausible
      rate of it lies below, or above, the baseline's rate less 0.2. */
  lemma StopsIff(cell: Counts, baseline: Counts, hasBaseline: bool, isBaseline: bool, k: nat, minN: nat,
                 baselineRoot: real, cellRoot: real)
    requires cell.passes <= cell.n && baseline.passes <= baseline.n
    requires (baseline.n > 0 ==> Sampled(baseline, baselineRoot)) && (cell.n > 0 ==> Sampled(cell, cellRoot))
    ensures var d := StopDecision(cell, baseline, hasBaseline, isBaseline, k, minN, baselineRoot, cellRoot);
      var compared := cell.n < k && !isBaseline && hasBaseline && baseline.n >= minN;
      var complete := baseline.n > 0 && baseline.n >= k;
      var floor := compared && (SurelyBelow(baseline, 0.2) || (complete && Rate(baseline) < 0.2));
      var judged := compared && !floor && cell.n >= minN && baseline.n > 0;
      && (d.Done? <==> cell.n >= k)
      && (d.Floor? <==> floor)
      && (d.DropCertain? <==> judged && SurelyBelow(cell, Rate(baseline) - 0.2))
      && (d.NoDropCertain? <==> judged && SurelyAbove(cell, Rate(baseline) - 0.2))
  {
    hide Center, Half, Radicand, IsRoot, SurelyBelow, SurelyAbove;
    EndsDecide(baseline, baselineRoot, 0.2);
    if baseline.n > 0 { EndsDecide(cell, cellRoot, Rate(baseline) - 0.2); }
    IntervalIsPlausible(cell, Z, cellRoot, 0.0);
  }

  /** A variant that never passed is a certain drop from a baseline that always did, after three
      samples. */
  lemma NeverPassesStops(cell: Counts, baseline: Counts, k: nat, baselineRoot: real, cellRoot: real)
    requires cell.passes == 0 && 3 <= cell.n < k && baseline.passes == baseline.n >= 3
    requires Sampled(baseline, baselineRoot) && Sampled(cell, cellRoot)
    ensures StopDecision(cell, baseline, true, false, k, 3, baselineRoot, cellRoot) == DropCertain
  {
    hide Center, Half, Radicand, IsRoot, StopDecision, Plausible;
    StopsIff(cell, baseline, true, false, k, 3, baselineRoot, cellRoot);
    WholeRate(baseline.n as real);
    forall x | Plausible(cell, 1.96, x) ensures x < 0.8 { ZeroPlausible(cell, x); }
    OnePlausible(baseline);
  }

  lemma WholeRate(n: real)
    requires n > 0.0
    ensures n / n == 1.0
  {}

  lemma OnePlausible(c: Counts)
    requires c.passes == c.n
    ensures Plausible(c, 1.96, 1.0)
  {}

  lemma ZeroPlausible(c: Counts, x: real)
    requires c.passes == 0 && c.n >= 3 && Plausible(c, 1.96, x)
    ensures x < 0.8
  {
    var n := c.n as real;
    if x > 0.0 {
      var nx := n * x;
      assert nx * nx <= n * 3.8416 * (x * (1.0 - x));
      assert n * 3.8416 * (x * (1.0 - x)) == nx * (3.8416 * (1.0 - x));
      ProductIsPositive(n, x, nx);
      SignOf(nx, nx - 3.8416 * (1.0 - x));
      Product(n - 3.0, x);
    }
  }

  ghost predicate Sampled(c: Counts, root: real) {
    c.n > 0 && c.passes <= c.n && IsRoot(root, Radicand(c.passes, c.n, Z))
  }

  /** An early verdict never contradicts the observed rates: a certain drop is a drop of more
      than 20 points, a certain non-drop one of less, and a floor is a rate below 20. */
  lemma EarlyStopsAgree(cell: Counts, baseline: Counts, hasBaseline: bool, isBaseline: bool, k: nat, minN: nat,
                        baselineRoot: real, cellRoot: real)
    requires minN > 0
    requires (baseline.n > 0 ==> Sampled(baseline, baselineRoot)) && (cell.n > 0 ==> Sampled(cell, cellRoot))
    ensures var d := StopDecision(cell, baseline, hasBaseline, isBaseline, k, minN, baselineRoot, cellRoot);
      && (d.DropCertain? || d.NoDropCertain? ==> cell.n > 0 && baseline.n > 0)
      && (d.DropCertain? ==> Rate(baseline) - Rate(cell) > LOAD_BEARING_DROP)
      && (d.NoDropCertain? ==> Rate(baseline) - Rate(cell) < LOAD_BEARING_DROP)
      && (d.Floor? ==> baseline.n > 0 && Rate(baseline) < LOAD_BEARING_DROP)
  {
    hide Center, Half, Radicand;
    if baseline.n > 0 { WilsonBound(baseline.passes, baseline.n, Z, baselineRoot); }
    if cell.n > 0 { WilsonBound(cell.passes, cell.n, Z, cellRoot); }
  }
}
