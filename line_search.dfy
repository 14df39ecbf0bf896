/** The stage weight of gradient boosting: the real `x` that minimises
    `np.mean((y - a_y - x * pred) ** 2)`. The model uses the exact
    minimiser of this one-dimensional quadratic in place of a numerical
    scalar minimiser. */
module LineSearch {
  import opened Linalg

  /** `sum((y - a) ** 2)`: the squared training error of the prediction `a`. */
  function Sse(y: seq<real>, a: seq<real>): (e: real)
    requires |y| == |a|
    ensures e >= 0.0
  {
    if |y| == 0 then 0.0
    else (y[0] - a[0]) * (y[0] - a[0]) + Sse(y[1..], a[1..])
  }

  /** `sum((y - a - x * p) ** 2)`. */
  function LineSse(y: seq<real>, a: seq<real>, p: seq<real>, x: real): real
    requires |y| == |a| == |p|
  {
    if |y| == 0 then 0.0
    else (y[0] - a[0] - x * p[0]) * (y[0] - a[0] - x * p[0]) + LineSse(y[1..], a[1..], p[1..], x)
  }

  /** `np.mean((y - a - x * p) ** 2)`, the function the line search minimises. */
  function Objective(y: seq<real>, a: seq<real>, p: seq<real>, x: real): (o: real)
    requires |y| == |a| == |p| && |y| > 0
    ensures o >= 0.0
  {
    Shifted(y, a, p, x);
    LineSse(y, a, p, x) / (|y| as real)
  }

  /** `sum((y - a) * p)`. */
  function Cross(y: seq<real>, a: seq<real>, p: seq<real>): real
    requires |y| == |a| == |p|
  {
    if |y| == 0 then 0.0 else (y[0] - a[0]) * p[0] + Cross(y[1..], a[1..], p[1..])
  }

  /** `sum(p ** 2)`. */
  function Energy(p: seq<real>): (e: real)
    ensures e >= 0.0
  {
    if |p| == 0 then 0.0 else p[0] * p[0] + Energy(p[1..])
  }

  /** The exact minimiser `sum((y - a) * p) / sum(p ** 2)`, and `0` when
      every prediction is zero and every `x` is as good as any other. */
  function StepWeight(y: seq<real>, a: seq<real>, p: seq<real>): (w: real)
    requires |y| == |a| == |p|
    ensures Energy(p) == 0.0 ==> w == 0.0
    ensures Energy(p) != 0.0 ==> w * Energy(p) == Cross(y, a, p)
  {
    var e := Energy(p);
    if e == 0.0 then 0.0 else Cross(y, a, p) / e
  }

  /** The error along the line is a quadratic in `x`. */
  lemma {:induction false} Expansion(y: seq<real>, a: seq<real>, p: seq<real>, x: real)
    requires |y| == |a| == |p|
    ensures LineSse(y, a, p, x) == Quadratic(Sse(y, a), Cross(y, a, p), Energy(p), x)
  {
    if |y| > 0 {
      var y', a', p' := y[1..], a[1..], p[1..];
      var r, q := y[0] - a[0], p[0];
      var s, c, e, l := Sse(y', a'), Cross(y', a', p'), Energy(p'), LineSse(y', a', p', x);
      var s', c', e', l' := Sse(y, a), Cross(y, a, p), Energy(p), LineSse(y, a, p, x);
      assert s' == r * r + s;
      assert c' == r * q + c;
      assert e' == q * q + e;
      assert l' == (r - x * q) * (r - x * q) + l;
      Expansion(y', a', p', x);
      TermExpansion(r, q, x, s, c, e);
    }
  }

  /** All predictions zero means the line is flat: the correlation vanishes.
      Otherwise the error, a sum of squares, would be negative at the point
      `Tilt`. */
  lemma FlatLine(y: seq<real>, a: seq<real>, p: seq<real>)
    requires |y| == |a| == |p| && Energy(p) == 0.0
    ensures Cross(y, a, p) == 0.0
  {
    var s, c := Sse(y, a), Cross(y, a, p);
    Expansion(y, a, p, Tilt(s, c));
    Shifted(y, a, p, Tilt(s, c));
    if c != 0.0 {
      QuadraticBelowZero(s, c);
    }
  }

  /** Moving `a` by `x * p` and measuring the error is the line's error at `x`. */
  lemma {:induction false} Shifted(y: seq<real>, a: seq<real>, p: seq<real>, x: real)
    requires |y| == |a| == |p|
    ensures LineSse(y, a, p, x) == Sse(y, AddScaled(a, x, p))
  {
    if |y| > 0 {
      Shifted(y[1..], a[1..], p[1..], x);
      var moved := AddScaled(a, x, p);
      assert |moved[1..]| == |a| - 1;
      assert forall i :: 0 <= i < |a| - 1 ==> moved[1..][i] == AddScaled(a[1..], x, p[1..])[i];
      assert moved[1..] == AddScaled(a[1..], x, p[1..]);
      assert y[0] - moved[0] == y[0] - a[0] - x * p[0];
    }
  }

  /** The stage weight minimises the error along the line. */
  lemma StepWeightMinimises(y: seq<real>, a: seq<real>, p: seq<real>, x: real)
    requires |y| == |a| == |p|
    ensures LineSse(y, a, p, StepWeight(y, a, p)) <= LineSse(y, a, p, x)
  {
    var s, c, e := Sse(y, a), Cross(y, a, p), Energy(p);
    Expansion(y, a, p, x);
    Expansion(y, a, p, StepWeight(y, a, p));
    if e == 0.0 {
      FlatLine(y, a, p);
    } else {
      QuadraticMinimum(s, c, e, x);
    }
  }

  /** The same for the mean the source minimises; in particular the stage
      weight does at least as well as `x = 0`, which leaves `a` unchanged. */
  lemma StepWeightMinimisesMean(y: seq<real>, a: seq<real>, p: seq<real>, x: real)
    requires |y| == |a| == |p| && |y| > 0
    ensures Objective(y, a, p, StepWeight(y, a, p)) <= Objective(y, a, p, x)
  {
    StepWeightMinimises(y, a, p, x);
    DivideMonotone(LineSse(y, a, p, StepWeight(y, a, p)), LineSse(y, a, p, x), |y| as real);
  }

  /** `learning_rate * weight`: the multiple of a stage's predictions that
      is added to the running prediction. */
  function Step(lr: real, weight: real): real
  {
    lr * weight
  }

  /** A step of `lr * w` along the line, `0 <= lr <= 2`, never increases the
      squared training error: `lr = 1` lands on the minimum and the error is
      symmetric about it. */
  lemma StageDoesNotIncreaseError(y: seq<real>, a: seq<real>, p: seq<real>, lr: real)
    requires |y| == |a| == |p| && 0.0 <= lr <= 2.0
    ensures Sse(y, AddScaled(a, Step(lr, StepWeight(y, a, p)), p)) <= Sse(y, a)
  {
    var s, c, e := Sse(y, a), Cross(y, a, p), Energy(p);
    var w := StepWeight(y, a, p);
    var x := Step(lr, w);
    Shifted(y, a, p, x);
    Expansion(y, a, p, x);
    if e == 0.0 {
      FlatLine(y, a, p);
    } else {
      DampedStep(s, c, e, lr, w, x);
    }
  }

  // Facts about real numbers the lemmas above rest on. Each is stated on
  // plain variables, or on the polynomials `Quadratic` and `Bowl`, so that
  // the solver proves it without other nonlinear facts in view.

  /** `s - 2xc + x^2 e`: the error along the line as a polynomial in `x`. */
  function Quadratic(s: real, c: real, e: real, x: real): real
  {
    s - 2.0 * x * c + x * x * e
  }

  /** `d^2 e`. */
  function Bowl(d: real, e: real): real
  {
    d * d * e
  }

  /** Adding one term `(r - x q)^2` to the polynomial. */
  lemma TermExpansion(r: real, q: real, x: real, s: real, c: real, e: real)
    ensures (r - x * q) * (r - x * q) + Quadratic(s, c, e, x) == Quadratic(r * r + s, r * q + c, q * q + e, x)
  {
  }

  /** Where a flat polynomial with `c != 0` dips below zero. */
  function Tilt(s: real, c: real): real
  {
    if c == 0.0 then 0.0 else (s + 1.0) / (2.0 * c)
  }

  lemma QuadraticBelowZero(s: real, c: real)
    requires c != 0.0
    ensures Quadratic(s, c, 0.0, Tilt(s, c)) == -1.0
  {
  }

  lemma MulNonnegative(u: real, v: real)
    requires u >= 0.0 && v >= 0.0
    ensures u * v >= 0.0
  {
  }

  lemma BowlNonnegative(d: real, e: real)
    requires e > 0.0
    ensures Bowl(d, e) >= 0.0
  {
  }

  lemma DivideMonotone(lo: real, hi: real, n: real)
    requires lo <= hi && n > 0.0
    ensures lo / n <= hi / n
  {
    assert hi / n - lo / n == (hi - lo) / n;
  }

  /** How far the polynomial lies above its value at `x = c / e`. */
  lemma QuadraticGap(s: real, c: real, e: real, x: real)
    requires e != 0.0
    ensures Quadratic(s, c, e, x) - Quadratic(s, c, e, c / e) == Bowl(x - c / e, e)
  {
  }

  /** With `e > 0` the polynomial is least at `x = c / e`. */
  lemma QuadraticMinimum(s: real, c: real, e: real, x: real)
    requires e > 0.0
    ensures Quadratic(s, c, e, c / e) <= Quadratic(s, c, e, x)
  {
    QuadraticGap(s, c, e, x);
    BowlNonnegative(x - c / e, e);
  }

  lemma DampedGap(s: real, c: real, e: real, lr: real)
    requires e != 0.0
    ensures Quadratic(s, c, e, lr * (c / e)) - s == -(lr * (2.0 - lr) * Bowl(c / e, e))
  {
  }

  /** A step of `lr * (c / e)`, `0 <= lr <= 2`, does not rise above `s`. */
  lemma DampedStep(s: real, c: real, e: real, lr: real, w: real, x: real)
    requires e > 0.0 && 0.0 <= lr <= 2.0 && w == c / e && x == Step(lr, w)
    ensures Quadratic(s, c, e, x) <= s
  {
    DampedGap(s, c, e, lr);
    BowlNonnegative(c / e, e);
    MulNonnegative(lr, 2.0 - lr);
    MulNonnegative(lr * (2.0 - lr), Bowl(c / e, e));
  }
}
