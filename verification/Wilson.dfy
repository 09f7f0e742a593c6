/**
 The interval and the comparison of `eval.rs`, over exact reals: `sqrt` is a parameter
 known by `IsSqrt` alone.
 */
module Wilson {
  const Z: real := 1.96

  predicate IsSqrt(x: real, r: real) {
    r >= 0.0 && r * r == x
  }

  function Max(a: real, b: real): real { if a >= b then a else b }

  function Min(a: real, b: real): real { if a <= b then a else b }

  datatype Interval = Interval(lo: real, hi: real)

  function Share(successes: nat, trials: nat): real
    requires trials > 0
  {
    successes as real / trials as real
  }

  function Radicand(p: real, n: real): real
    requires n > 0.0
  {
    p * (1.0 - p) / n + Z * Z / (4.0 * n * n)
  }

  /** The endpoints before the clamps; `root` is the square root of `Radicand(p, n)`. */
  function Unclamped(p: real, n: real, root: real): Interval
    requires n > 0.0
  {
    var denominator := 1.0 + Z * Z / n;
    var centre := (p + Z * Z / (2.0 * n)) / denominator;
    var margin := Z * root / denominator;
    Interval(centre - margin, centre + margin)
  }

  function Wilson(successes: nat, trials: nat, root: real): Interval
    requires trials > 0
  {
    var i := Unclamped(Share(successes, trials), trials as real, root);
    Interval(Max(i.lo, 0.0), Min(i.hi, 1.0))
  }

  // -- In one variable less --------------------------------------------------

  /** The square of the half-width, but for the denominator. */
  function Spread(k: real, p: real): real {
    k * (p * (1.0 - p) + k / 4.0)
  }

  /** How far the centre is from the share, but for the denominator. */
  function Tilt(k: real, p: real): real {
    k * (0.5 - p)
  }

  function Excess(k: real, p: real): real {
    k * ((1.0 + k) * (p * (1.0 - p)))
  }

  /**
   With `k = Z*Z/n` and `w = Z*root`: the interval is `(p + k/2 - w) / (1 + k)` to
   `(p + k/2 + w) / (1 + k)`.
   */
  predicate Scaled(k: real, p: real, w: real) {
    k > 0.0 && 0.0 <= p <= 1.0 && w >= 0.0 && w * w == Spread(k, p)
  }

  function Lo(k: real, p: real, w: real): real requires k > 0.0 { (p + k / 2.0 - w) / (1.0 + k) }

  function Hi(k: real, p: real, w: real): real requires k > 0.0 { (p + k / 2.0 + w) / (1.0 + k) }

  // Polynomial identities, each on its own.

  lemma CentreIdentity(k: real, p: real)
    ensures (p + k / 2.0) * (p + k / 2.0) == Spread(k, p) + (1.0 + k) * (p * p)
  {
  }

  lemma TiltIdentity(k: real, p: real)
    ensures Spread(k, p) == Tilt(k, p) * Tilt(k, p) + Excess(k, p)
  {
  }

  lemma GainIdentity(k: real, p: real, p': real)
    ensures Spread(k, p') - Spread(k, p) == (p' - p) * (Tilt(k, p) + Tilt(k, p'))
  {
  }

  lemma RootIdentity(k: real, p: real, x: real, y: real)
    requires y == (1.0 + k) * x - (p + k / 2.0)
    ensures y * y - Spread(k, p) == (1.0 + k) * ((p - x) * (p - x) - k * (x * (1.0 - x)))
  {
  }

  lemma DifferenceOfSquares(g: real, w: real)
    ensures (g - w) * (g + w) == g * g - w * w
  {
  }

  // Order and division, one fact at a time.

  lemma MulPositive(a: real, b: real)
    ensures a >= 0.0 && b >= 0.0 ==> a * b >= 0.0
    ensures a > 0.0 && b > 0.0 ==> a * b > 0.0
  {
  }

  lemma MulNegative(a: real, b: real)
    ensures a > 0.0 && b < 0.0 ==> a * b < 0.0
    ensures b == 0.0 ==> a * b == 0.0
  {
  }

  lemma MulDiv(a: real, d: real)
    requires d > 0.0
    ensures d * (a / d) == a
  {
  }

  lemma ZeroProduct(d: real, e: real)
    requires d > 0.0
    ensures d * e == 0.0 <==> e == 0.0
    ensures d * e > 0.0 <==> e > 0.0
  {
    MulPositive(d, e);
    MulNegative(d, e);
  }

  lemma MulMinus(d: real, x: real, y: real)
    ensures d * (y - x) == d * y - d * x
  {
  }

  lemma Cancel(d: real, x: real, y: real)
    requires d > 0.0
    ensures d * x < d * y <==> x < y
    ensures d * x == d * y <==> x == y
  {
    MulMinus(d, x, y);
    ZeroProduct(d, y - x);
  }

  lemma Quotients(a: real, b: real, d: real)
    requires d > 0.0
    ensures a < b <==> a / d < b / d
  {
    MulDiv(a, d);
    MulDiv(b, d);
    Cancel(d, a / d, b / d);
  }

  lemma IsQuotient(d: real, x: real, a: real)
    requires d > 0.0
    ensures x == a / d <==> d * x == a
  {
    MulDiv(a, d);
    Cancel(d, x, a / d);
  }

  lemma Complement(b: real, d: real)
    requires d > 0.0
    ensures (d - b) / d == 1.0 - b / d
  {
    MulDiv(b, d);
    MulMinus(d, b / d, 1.0);
    IsQuotient(d, 1.0 - b / d, d - b);
  }

  lemma SameSquare(y: real, w: real)
    ensures y * y == w * w <==> y == w || y == -w
  {
    DifferenceOfSquares(y, w);
  }

  /** A number is larger in size than another when its square is. */
  lemma SquareOrder(w: real, g: real)
    requires w >= 0.0 && w * w >= g * g
    ensures -w <= g <= w
    ensures w * w > g * g ==> -w < g < w
  {
    DifferenceOfSquares(w, g);
    SquareOrderFrom(w, g, w - g, w + g);
  }

  lemma SquareOrderFrom(w: real, g: real, a: real, b: real)
    requires w >= 0.0 && a == w - g && b == w + g && a * b >= 0.0
    ensures a >= 0.0 && b >= 0.0
    ensures a * b > 0.0 ==> a > 0.0 && b > 0.0
  {
    MulNegative(a, b);
    MulCommutes(a, b);
    MulNegative(b, a);
  }

  lemma MulCommutes(a: real, b: real)
    ensures a * b == b * a
  {
  }

  /** The division of the interval's formula, taken once. */
  lemma Scale(p: real, n: real, root: real) returns (k: real, w: real)
    requires n > 0.0 && 0.0 <= p <= 1.0 && IsSqrt(Radicand(p, n), root)
    ensures k == Z * Z / n && w == Z * root && Scaled(k, p, w)
    ensures Unclamped(p, n, root) == Interval(Lo(k, p, w), Hi(k, p, w))
  {
    k, w := Z * Z / n, Z * root;
    assert w * w == Z * Z * (root * root);
    var x := p * (1.0 - p);
    assert Z * Z * (x / n) == k * x;
    assert Z * Z * (Z * Z / (4.0 * n * n)) == k * (k / 4.0);
    assert Z * Z / (2.0 * n) == k / 2.0;
    MulPlus(k, x, k / 4.0);
    assert (p + k / 2.0) / (1.0 + k) - w / (1.0 + k) == Lo(k, p, w);
    assert (p + k / 2.0) / (1.0 + k) + w / (1.0 + k) == Hi(k, p, w);
  }

  /** The half-width against the centre's distance to 0. */
  lemma BelowCentre(k: real, p: real, w: real)
    requires Scaled(k, p, w)
    ensures w <= p + k / 2.0
  {
    CentreIdentity(k, p);
    MulPositive(p, p);
    MulPositive(1.0 + k, p * p);
    SquareOrder(p + k / 2.0, w);
  }

  /** The same about `1 - p`, the share of failures. */
  lemma Mirrored(k: real, p: real, w: real)
    requires Scaled(k, p, w)
    ensures Scaled(k, 1.0 - p, w)
    ensures Lo(k, 1.0 - p, w) == 1.0 - Hi(k, p, w)
  {
    assert (1.0 - p) * (1.0 - (1.0 - p)) == p * (1.0 - p);
    Complement(p + k / 2.0 + w, 1.0 + k);
    assert 1.0 - p + k / 2.0 - w == 1.0 + k - (p + k / 2.0 + w);
  }

  lemma ProductPositive(a: real, b: real, e: real)
    requires e == a * b
    ensures a >= 0.0 && b >= 0.0 ==> e >= 0.0
    ensures a > 0.0 && b > 0.0 ==> e > 0.0
  {
    MulPositive(a, b);
  }

  lemma SpreadPositive(k: real, p: real)
    requires k > 0.0 && 0.0 <= p <= 1.0
    ensures Spread(k, p) > 0.0
  {
    MulPositive(p, 1.0 - p);
    ProductPositive(k, p * (1.0 - p) + k / 4.0, Spread(k, p));
  }

  lemma ExcessPositive(k: real, p: real)
    requires k > 0.0 && 0.0 <= p <= 1.0
    ensures Excess(k, p) >= 0.0 && (0.0 < p < 1.0 ==> Excess(k, p) > 0.0)
  {
    MulPositive(p, 1.0 - p);
    MulPositive(1.0 + k, p * (1.0 - p));
    ProductPositive(k, (1.0 + k) * (p * (1.0 - p)), Excess(k, p));
  }

  lemma RootPositive(w: real)
    requires w >= 0.0 && w * w > 0.0
    ensures w > 0.0
  {
    MulNegative(w, w);
  }

  lemma HalfWidthPositive(k: real, p: real, w: real)
    requires Scaled(k, p, w)
    ensures w > 0.0
  {
    SpreadPositive(k, p);
    RootPositive(w);
  }

  lemma SquareExcess(w: real, g: real, e: real)
    requires w >= 0.0 && w * w == g * g + e && e >= 0.0
    ensures -w <= g <= w && (e > 0.0 ==> -w < g)
  {
    SquareOrder(w, g);
  }

  /** The half-width against the centre's distance to the share itself. */
  lemma AboveShare(k: real, p: real, w: real)
    requires Scaled(k, p, w)
    ensures -w <= Tilt(k, p) <= w
    ensures p < 1.0 ==> -w < Tilt(k, p)
  {
    TiltIdentity(k, p);
    ExcessPositive(k, p);
    SquareExcess(w, Tilt(k, p), Excess(k, p));
    HalfWidthPositive(k, p, w);
    if p == 0.0 {
      MulPositive(k, 0.5);
    }
  }

  lemma SidesOf(k: real, c: real, w: real, x: real)
    requires k > 0.0
    ensures x == (c - w) / (1.0 + k) <==> (1.0 + k) * x - c == -w
    ensures x == (c + w) / (1.0 + k) <==> (1.0 + k) * x - c == w
  {
    IsQuotient(1.0 + k, x, c - w);
    IsQuotient(1.0 + k, x, c + w);
  }

  lemma RootIff(k: real, p: real, x: real, y: real)
    requires k > 0.0 && y == (1.0 + k) * x - (p + k / 2.0)
    ensures (p - x) * (p - x) == k * (x * (1.0 - x)) <==> y * y == Spread(k, p)
  {
    RootIdentity(k, p, x, y);
    ZeroProduct(1.0 + k, (p - x) * (p - x) - k * (x * (1.0 - x)));
  }

  /** Exactly the two endpoints solve the equation the interval is defined by. */
  lemma EndpointIffRoot(k: real, p: real, w: real, x: real)
    requires Scaled(k, p, w)
    ensures (p - x) * (p - x) == k * (x * (1.0 - x)) <==> x == Lo(k, p, w) || x == Hi(k, p, w)
  {
    RootIff(k, p, x, (1.0 + k) * x - (p + k / 2.0));
    SameSquare((1.0 + k) * x - (p + k / 2.0), w);
    SidesOf(k, p + k / 2.0, w, x);
  }

  lemma QuotientBetween(top: real, d: real, p: real)
    requires d > 0.0 && 0.0 <= top <= d * p
    ensures 0.0 <= top / d <= p
  {
    MulDiv(top, d);
    Cancel(d, p, top / d);
    ZeroProduct(d, -(top / d));
    MulMinus(d, top / d, 0.0);
  }

  lemma TiltLeaves(k: real, p: real)
    ensures p + k / 2.0 - Tilt(k, p) == (1.0 + k) * p
  {
  }

  lemma LowerEncloses(k: real, p: real, w: real)
    requires Scaled(k, p, w)
    ensures 0.0 <= Lo(k, p, w) <= p
  {
    BelowCentre(k, p, w);
    AboveShare(k, p, w);
    TiltLeaves(k, p);
    QuotientBetween(p + k / 2.0 - w, 1.0 + k, p);
  }

  /** Both endpoints lie in [0, 1] and enclose the share. */
  lemma Encloses(k: real, p: real, w: real)
    requires Scaled(k, p, w)
    ensures 0.0 <= Lo(k, p, w) <= p <= Hi(k, p, w) <= 1.0
  {
    LowerEncloses(k, p, w);
    Mirrored(k, p, w);
    LowerEncloses(k, 1.0 - p, w);
  }

  lemma MulPlus(a: real, b: real, c: real)
    ensures a * (b + c) == a * b + a * c
  {
  }

  lemma Outgrows(step: real, change: real, sum: real, m: real)
    requires step > 0.0 && sum > 0.0 && sum + m > 0.0 && change * sum == step * m
    ensures step + change > 0.0
  {
    MulPositive(step, sum + m);
    MulPlus(step, sum, m);
    MulPlus(sum, step, change);
    MulCommutes(sum, step);
    MulCommutes(sum, change);
    ZeroProduct(sum, step + change);
  }

  /** Going up by a share takes the half-width down by less than that. */
  lemma FallsLess(p: real, w: real, p': real, w': real, m: real)
    requires w' * w' - w * w == (p' - p) * m && w' + w > 0.0 && w' + w + m > 0.0 && p < p'
    ensures p + w < p' + w'
  {
    DifferenceOfSquares(w', w);
    Outgrows(p' - p, w' - w, w' + w, m);
  }

  lemma HalfWidthGain(k: real, p: real, w: real, p': real, w': real)
    requires w * w == Spread(k, p) && w' * w' == Spread(k, p')
    ensures w' * w' - w * w == (p' - p) * (Tilt(k, p) + Tilt(k, p'))
  {
    GainIdentity(k, p, p');
  }

  lemma HalfWidthsOutweigh(k: real, p: real, w: real, p': real, w': real)
    requires Scaled(k, p, w) && Scaled(k, p', w') && p < p'
    ensures w' + w > 0.0 && w' + w + (Tilt(k, p) + Tilt(k, p')) > 0.0
  {
    HalfWidthPositive(k, p, w);
    AboveShare(k, p, w);
    AboveShare(k, p', w');
  }

  lemma TopGrows(k: real, p: real, w: real, p': real, w': real)
    requires Scaled(k, p, w) && Scaled(k, p', w') && p < p'
    ensures p + k / 2.0 + w < p' + k / 2.0 + w'
  {
    HalfWidthGain(k, p, w, p', w');
    HalfWidthsOutweigh(k, p, w, p', w');
    FallsLess(p, w, p', w', Tilt(k, p) + Tilt(k, p'));
  }

  lemma HiGrows(k: real, p: real, w: real, p': real, w': real)
    requires Scaled(k, p, w) && Scaled(k, p', w') && p < p'
    ensures Hi(k, p, w) < Hi(k, p', w')
  {
    TopGrows(k, p, w, p', w');
    Quotients(p + k / 2.0 + w, p' + k / 2.0 + w', 1.0 + k);
  }

  lemma LoGrows(k: real, p: real, w: real, p': real, w': real)
    requires Scaled(k, p, w) && Scaled(k, p', w') && p < p'
    ensures Lo(k, p, w) < Lo(k, p', w')
  {
    Mirrored(k, p, w);
    Mirrored(k, p', w');
    Mirrored(k, 1.0 - p, w);
    Mirrored(k, 1.0 - p', w');
    assert 1.0 - (1.0 - p) == p && 1.0 - (1.0 - p') == p';
    HiGrows(k, 1.0 - p', w', 1.0 - p, w);
  }

  // -- The interval ----------------------------------------------------------

  lemma ShareInRange(successes: nat, trials: nat)
    requires trials > 0 && successes <= trials
    ensures 0.0 <= Share(successes, trials) <= 1.0
  {
    var s, n := successes as real, trials as real;
    Quotients(-s, 0.0, n);
    Quotients(s, n, n);
    Quotients(n, s, n);
    MulDiv(n, n);
    Cancel(n, n / n, 1.0);
    Quotients(s, 0.0, n);
    MulDiv(s, n);
    MulPositive(n, -(s / n));
  }

  /** The equation a Wilson interval is defined by. */
  predicate Solves(p: real, n: real, q: real)
    requires n > 0.0
  {
    (p - q) * (p - q) == 1.96 * 1.96 / n * (q * (1.0 - q))
  }

  lemma SolvesIffEndpoint(p: real, n: real, root: real, q: real)
    requires n > 0.0 && 0.0 <= p <= 1.0 && IsSqrt(Radicand(p, n), root)
    ensures Solves(p, n, q) <==> q == Unclamped(p, n, root).lo || q == Unclamped(p, n, root).hi
  {
    var k, w := Scale(p, n, root);
    EndpointIffRoot(k, p, w, q);
  }

  /**
   The endpoints are exactly the solutions `q` of `(p-q)^2 = z^2 q(1-q)/n`; both lie in
   [0, 1], so the clamps change nothing, and they enclose the share `p`.
   */
  lemma EndpointsSolve(successes: nat, trials: nat, root: real)
    requires trials > 0 && successes <= trials
    requires IsSqrt(Radicand(Share(successes, trials), trials as real), root)
    ensures var p, n := Share(successes, trials), trials as real;
            var i := Wilson(successes, trials, root);
            && i == Unclamped(p, n, root)
            && 0.0 <= i.lo <= p <= i.hi <= 1.0
            && forall q :: Solves(p, n, q) <==> q == i.lo || q == i.hi
  {
    var p, n := Share(successes, trials), trials as real;
    ShareInRange(successes, trials);
    var k, w := Scale(p, n, root);
    Encloses(k, p, w);
    forall q
      ensures Solves(p, n, q) <==> q == Unclamped(p, n, root).lo || q == Unclamped(p, n, root).hi
    {
      SolvesIffEndpoint(p, n, root, q);
    }
  }

  /** One more success moves both endpoints up. */
  lemma EndpointsIncrease(successes: nat, more: nat, trials: nat, root: real, root': real)
    requires trials > 0 && successes < more <= trials
    requires IsSqrt(Radicand(Share(successes, trials), trials as real), root)
    requires IsSqrt(Radicand(Share(more, trials), trials as real), root')
    ensures Wilson(successes, trials, root).lo < Wilson(more, trials, root').lo
    ensures Wilson(successes, trials, root).hi < Wilson(more, trials, root').hi
  {
    EndpointsSolve(successes, trials, root);
    EndpointsSolve(more, trials, root');
    ShareInRange(successes, trials);
    ShareInRange(more, trials);
    var p, p', n := Share(successes, trials), Share(more, trials), trials as real;
    var k, w := Scale(p, n, root);
    var k', w' := Scale(p', n, root');
    Quotients(successes as real, more as real, n);
    LoGrows(k, p, w, p', w');
    HiGrows(k, p, w, p', w');
  }

  // -- The comparison --------------------------------------------------------

  datatype Safety = Safety(denials: nat, violations: nat, exposures: nat)

  datatype TaskReport = TaskReport(arm: string, passed: nat, input: nat, output: nat, safety: Safety)

  datatype Total = Total(passed: nat, attempts: nat, tokens: nat)

  datatype Comparison = Comparison(
    arm: string, baseline: string, rate: real, baselineRate: real, rateDelta: real,
    tokens: nat, baselineTokens: nat, beatsBaseline: bool)

  /** The rows of one arm added up, `trials` attempts to a row. */
  function Totals(tasks: seq<TaskReport>, arm: string, trials: nat): Total {
    if tasks == [] then Total(0, 0, 0)
    else
      var rest, t := Totals(tasks[1..], arm, trials), tasks[0];
      if t.arm != arm then rest
      else Total(t.passed + rest.passed, trials + rest.attempts, t.input + t.output + rest.tokens)
  }

  function Rate(passed: nat, attempts: nat): real {
    if attempts == 0 then 0.0 else passed as real / attempts as real
  }

  function AtLeastOne(attempts: nat): nat {
    if attempts == 0 then 1 else attempts
  }

  /** Rows of an arm joined to others add up. */
  lemma {:induction false} TotalsJoin(a: seq<TaskReport>, b: seq<TaskReport>, arm: string, trials: nat)
    ensures var s, t, u := Totals(a, arm, trials), Totals(b, arm, trials), Totals(a + b, arm, trials);
            && u.passed == s.passed + t.passed && u.attempts == s.attempts + t.attempts && u.tokens == s.tokens + t.tokens
  {
    if a == [] {
      assert a + b == b;
    } else {
      assert (a + b)[1..] == a[1..] + b;
      TotalsJoin(a[1..], b, arm, trials);
    }
  }

  lemma TotalsOfOne(t: TaskReport, arm: string, trials: nat)
    ensures Totals([t], t.arm, trials) == Total(t.passed, trials, t.input + t.output)
    ensures arm != t.arm ==> Totals([t], arm, trials) == Total(0, 0, 0)
  {
    assert [t][1..] == [];
  }

  /**
   A row is credited to its own arm and to no other, wherever it stands: its passes, one
   set of trials, and its tokens in and out.
   */
  lemma RowIsCredited(before: seq<TaskReport>, t: TaskReport, after: seq<TaskReport>, arm: string, trials: nat)
    ensures var rest, all := Totals(before + after, arm, trials), Totals(before + [t] + after, arm, trials);
            if arm == t.arm
            then all == Total(rest.passed + t.passed, rest.attempts + trials, rest.tokens + t.input + t.output)
            else all == rest
  {
    TotalsJoin(before, after, arm, trials);
    TotalsJoin(before, [t], arm, trials);
    TotalsJoin(before + [t], after, arm, trials);
    TotalsOfOne(t, arm, trials);
  }

  lemma {:induction false} ArmWithoutRows(tasks: seq<TaskReport>, arm: string, trials: nat)
    requires forall t :: t in tasks ==> t.arm != arm
    ensures Totals(tasks, arm, trials) == Total(0, 0, 0)
  {
    if tasks == [] {
    } else {
      assert tasks[0] in tasks;
      ArmWithoutRows(tasks[1..], arm, trials);
    }
  }

  /** The interval a total gets; one without attempts is scored as one attempt. */
  function IntervalOf(t: Total, sqrt: real -> real): Interval {
    var n := AtLeastOne(t.attempts);
    Wilson(t.passed, n, sqrt(Radicand(Share(t.passed, n), n as real)))
  }

  predicate Beats(t: Total, base: Total, sqrt: real -> real) {
    IntervalOf(t, sqrt).lo > IntervalOf(base, sqrt).hi
  }

  function Compare(tasks: seq<TaskReport>, arms: seq<string>, trials: nat, sqrt: real -> real): seq<Comparison> {
    if arms == [] then []
    else
      var base := Totals(tasks, arms[0], trials);
      seq(|arms| - 1, i requires 0 <= i < |arms| - 1 =>
        var t := Totals(tasks, arms[i + 1], trials);
        Comparison(arms[i + 1], arms[0], Rate(t.passed, t.attempts), Rate(base.passed, base.attempts),
                   Rate(t.passed, t.attempts) - Rate(base.passed, base.attempts),
                   t.tokens, base.tokens, Beats(t, base, sqrt)))
  }

  ghost predicate TakesRoots(sqrt: real -> real) {
    forall x :: x >= 0.0 ==> IsSqrt(x, sqrt(x))
  }

  /** All that is asked of the square root: it is not negative, and its square is the number. */
  lemma RootsAre(sqrt: real -> real)
    ensures TakesRoots(sqrt) <==> forall x :: x >= 0.0 ==> sqrt(x) >= 0.0 && sqrt(x) * sqrt(x) == x
  {
    if forall x :: x >= 0.0 ==> sqrt(x) >= 0.0 && sqrt(x) * sqrt(x) == x {
      forall x | x >= 0.0
        ensures IsSqrt(x, sqrt(x))
      {
      }
    }
  }

  lemma {:induction false} PassedWithinAttempts(tasks: seq<TaskReport>, arm: string, trials: nat)
    requires forall t :: t in tasks ==> t.passed <= trials
    ensures Totals(tasks, arm, trials).passed <= Totals(tasks, arm, trials).attempts
  {
    if tasks == [] {
    } else {
      assert tasks[0] in tasks;
      PassedWithinAttempts(tasks[1..], arm, trials);
    }
  }

  lemma RadicandNotNegative(p: real, n: real)
    requires n > 0.0 && 0.0 <= p <= 1.0
    ensures Radicand(p, n) >= 0.0
  {
    MulPositive(p, 1.0 - p);
    var x, m := p * (1.0 - p), 4.0 * n;
    var y := m * n;
    MulPositive(m, n);
    MulDiv(x, n);
    MulPositive(n, -(x / n));
    MulDiv(Z * Z, y);
    MulPositive(y, -(Z * Z / y));
  }

  lemma IntervalEncloses(t: Total, sqrt: real -> real)
    requires TakesRoots(sqrt) && t.passed <= t.attempts
    ensures IntervalOf(t, sqrt).lo <= Rate(t.passed, t.attempts) <= IntervalOf(t, sqrt).hi
  {
    var n := AtLeastOne(t.attempts);
    ShareInRange(t.passed, n);
    RadicandNotNegative(Share(t.passed, n), n as real);
    EndpointsSolve(t.passed, n, sqrt(Radicand(Share(t.passed, n), n as real)));
    if t.attempts == 0 {
      MulDiv(0.0, 1.0);
    }
  }

  /**
   An arm said to beat the baseline has the strictly higher rate, whatever the numbers of
   tasks and trials, arms without a row included.
   */
  lemma BeatingMeansHigherRate(tasks: seq<TaskReport>, arms: seq<string>, trials: nat, sqrt: real -> real, i: nat)
    requires TakesRoots(sqrt) && i < |Compare(tasks, arms, trials, sqrt)|
    requires forall t :: t in tasks ==> t.passed <= trials
    ensures var c := Compare(tasks, arms, trials, sqrt)[i];
            c.beatsBaseline ==> c.rate > c.baselineRate && c.rateDelta > 0.0
  {
    PassedWithinAttempts(tasks, arms[0], trials);
    PassedWithinAttempts(tasks, arms[i + 1], trials);
    IntervalEncloses(Totals(tasks, arms[0], trials), sqrt);
    IntervalEncloses(Totals(tasks, arms[i + 1], trials), sqrt);
  }

  /** Beating is a strict order between any totals that do not pass more than they attempt. */
  lemma BeatingIsAnOrder(a: Total, b: Total, c: Total, sqrt: real -> real)
    requires TakesRoots(sqrt) && a.passed <= a.attempts && b.passed <= b.attempts && c.passed <= c.attempts
    ensures Beats(a, b, sqrt) ==> !Beats(b, a, sqrt)
    ensures Beats(a, b, sqrt) && Beats(b, c, sqrt) ==> Beats(a, c, sqrt)
    ensures !Beats(a, a, sqrt)
  {
    IntervalEncloses(a, sqrt);
    IntervalEncloses(b, sqrt);
    IntervalEncloses(c, sqrt);
  }

  // -- How many attempts a claim takes -----------------------------------------

  function Width(n: real): real
    requires n > 0.0
  {
    Z * Z / n
  }

  /** The two parts `1` and `k` make of their sum. */
  lemma PartsOfOne(k: real)
    requires k > 0.0
    ensures 0.0 < 1.0 / (1.0 + k) < 1.0 && 0.0 < k / (1.0 + k) < 1.0
    ensures k / (1.0 + k) == 1.0 - 1.0 / (1.0 + k) == k * (1.0 / (1.0 + k))
  {
    var d := 1.0 + k;
    Quotients(0.0, 1.0, d);
    Quotients(1.0, d, d);
    Complement(1.0, d);
    MulDiv(1.0, d);
  }

  /** The endpoints of an arm that passed everything, and of one that passed nothing. */
  lemma ExtremesSolve(n: real)
    requires n > 0.0
    ensures Width(n) > 0.0
    ensures Solves(1.0, n, 1.0) && Solves(1.0, n, 1.0 / (1.0 + Width(n)))
    ensures Solves(0.0, n, 0.0) && Solves(0.0, n, Width(n) / (1.0 + Width(n)))
  {
    var k := Width(n);
    Quotients(0.0, Z * Z, n);
    MulDiv(0.0, n);
    PartsOfOne(k);
    SquareOfExtreme(k, 1.0 / (1.0 + k), k / (1.0 + k));
  }

  lemma SquareOfExtreme(k: real, q: real, r: real)
    requires r == 1.0 - q && r == k * q
    ensures r * r == k * (q * r)
  {
  }

  lemma AllPassed(n: nat, sqrt: real -> real)
    requires n > 0 && TakesRoots(sqrt)
    ensures IntervalOf(Total(n, n, 0), sqrt) == Interval(1.0 / (1.0 + Width(n as real)), 1.0)
  {
    Share1(n);
    RadicandNotNegative(1.0, n as real);
    EndpointsSolve(n, n, sqrt(Radicand(1.0, n as real)));
    ExtremesSolve(n as real);
    PartsOfOne(Width(n as real));
  }

  lemma NonePassed(n: nat, sqrt: real -> real)
    requires n > 0 && TakesRoots(sqrt)
    ensures IntervalOf(Total(0, n, 0), sqrt) == Interval(0.0, Width(n as real) / (1.0 + Width(n as real)))
  {
    Share1(n);
    RadicandNotNegative(0.0, n as real);
    EndpointsSolve(0, n, sqrt(Radicand(0.0, n as real)));
    ExtremesSolve(n as real);
    PartsOfOne(Width(n as real));
  }

  lemma Share1(n: nat)
    requires n > 0
    ensures Share(n, n) == 1.0 && Share(0, n) == 0.0
  {
    MulDiv(1.0, n as real);
    MulDiv(0.0, n as real);
    Cancel(n as real, Share(n, n), 1.0);
    Cancel(n as real, Share(0, n), 0.0);
  }

  /** No arm of `n` attempts does better than passing all of them, or worse than none. */
  lemma WithinExtremes(t: Total, sqrt: real -> real)
    requires TakesRoots(sqrt) && 0 < t.attempts && t.passed <= t.attempts
    ensures IntervalOf(t, sqrt).lo <= IntervalOf(Total(t.attempts, t.attempts, 0), sqrt).lo
    ensures IntervalOf(Total(0, t.attempts, 0), sqrt).hi <= IntervalOf(t, sqrt).hi
  {
    var n := t.attempts;
    ShareInRange(t.passed, n);
    ShareInRange(n, n);
    ShareInRange(0, n);
    RadicandNotNegative(Share(t.passed, n), n as real);
    RadicandNotNegative(Share(n, n), n as real);
    RadicandNotNegative(Share(0, n), n as real);
    var root := sqrt(Radicand(Share(t.passed, n), n as real));
    if t.passed < n {
      EndpointsIncrease(t.passed, n, n, root, sqrt(Radicand(Share(n, n), n as real)));
    }
    if 0 < t.passed {
      EndpointsIncrease(0, t.passed, n, sqrt(Radicand(Share(0, n), n as real)), root);
    }
  }

  lemma WidthBelowOneIff(n: nat)
    requires n > 0
    ensures Width(n as real) < 1.0 <==> n >= 4
  {
    MulDiv(Z * Z, n as real);
    Cancel(n as real, Width(n as real), 1.0);
  }

  predicate SomeArmBeats(a: Total, b: Total, attempts: nat, sqrt: real -> real) {
    && a.attempts == attempts && b.attempts == attempts && a.passed <= attempts && b.passed <= attempts
    && Beats(a, b, sqrt)
  }

  /**
   Between two arms of the same number of attempts, some result beats the baseline exactly
   when there are four attempts or more: one run cannot establish superiority, and neither
   can three.
   */
  lemma SuperiorityNeedsFour(attempts: nat, sqrt: real -> real)
    requires TakesRoots(sqrt)
    ensures (exists a, b :: SomeArmBeats(a, b, attempts, sqrt)) <==> attempts >= 4
  {
    if attempts == 0 {
      forall a, b
        ensures !SomeArmBeats(a, b, 0, sqrt)
      {
        if a.attempts == 0 && b.attempts == 0 && a.passed == 0 && b.passed == 0 {
          BeatingIsAnOrder(a, a, a, sqrt);
        }
      }
      return;
    }
    var all, none, k := Total(attempts, attempts, 0), Total(0, attempts, 0), Width(attempts as real);
    AllPassed(attempts, sqrt);
    NonePassed(attempts, sqrt);
    WidthBelowOneIff(attempts);
    Quotients(k, 1.0, 1.0 + k);
    forall a, b
      ensures SomeArmBeats(a, b, attempts, sqrt) ==> Beats(all, none, sqrt)
    {
      if SomeArmBeats(a, b, attempts, sqrt) {
        WithinExtremes(a, sqrt);
        WithinExtremes(b, sqrt);
      }
    }
    if attempts >= 4 {
      assert SomeArmBeats(all, none, attempts, sqrt);
    }
  }

  lemma RateIs(passed: nat, attempts: nat)
    ensures Rate(passed, attempts) * attempts as real == if attempts == 0 then 0.0 else passed as real
    ensures attempts == 0 ==> Rate(passed, attempts) == 0.0
  {
    if attempts > 0 {
      MulDiv(passed as real, attempts as real);
      MulCommutes(Rate(passed, attempts), attempts as real);
    }
  }

  predicate SolvesFor(t: Total, q: real) {
    var n := AtLeastOne(t.attempts);
    Solves(Share(t.passed, n), n as real, q)
  }

  /** One total beats another exactly when all it may stand for lies above all the other may. */
  lemma BeatsIff(t: Total, base: Total, sqrt: real -> real)
    requires TakesRoots(sqrt) && t.passed <= t.attempts && base.passed <= base.attempts
    ensures Beats(t, base, sqrt) <==> forall q, r :: SolvesFor(t, q) && SolvesFor(base, r) ==> q > r
  {
    var n, m := AtLeastOne(t.attempts), AtLeastOne(base.attempts);
    ShareInRange(t.passed, n);
    ShareInRange(base.passed, m);
    RadicandNotNegative(Share(t.passed, n), n as real);
    RadicandNotNegative(Share(base.passed, m), m as real);
    EndpointsSolve(t.passed, n, sqrt(Radicand(Share(t.passed, n), n as real)));
    EndpointsSolve(base.passed, m, sqrt(Radicand(Share(base.passed, m), m as real)));
    var i, j := IntervalOf(t, sqrt), IntervalOf(base, sqrt);
    assert SolvesFor(t, i.lo) && SolvesFor(base, j.hi);
    assert forall q :: SolvesFor(t, q) <==> q == i.lo || q == i.hi;
    assert forall q :: SolvesFor(base, q) <==> q == j.lo || q == j.hi;
  }

  /** Every arm after the first is compared with the first, on its own rows and the first's. */
  lemma ComparesEachArm(tasks: seq<TaskReport>, arms: seq<string>, trials: nat, sqrt: real -> real)
    ensures arms == [] ==> Compare(tasks, arms, trials, sqrt) == []
    ensures arms != [] ==>
              && |Compare(tasks, arms, trials, sqrt)| == |arms| - 1
              && var base := Totals(tasks, arms[0], trials);
                 forall i :: 0 < i < |arms| ==>
                   var c, t := Compare(tasks, arms, trials, sqrt)[i - 1], Totals(tasks, arms[i], trials);
                   && c.arm == arms[i] && c.baseline == arms[0]
                   && c.rate == Rate(t.passed, t.attempts) && c.baselineRate == Rate(base.passed, base.attempts)
                   && c.rateDelta == c.rate - c.baselineRate && c.tokens == t.tokens && c.baselineTokens == base.tokens
                   && (c.beatsBaseline <==> Beats(t, base, sqrt))
  {
  }
}
