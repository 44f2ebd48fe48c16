/** bench/step_kernels.py, `fold_prefill_from_profile`: total_ms = v * tokens + F * chunks by least squares. */
module PrefillFit {
  import opened Wrappers

  datatype Point = Point(t: real, c: real, y: real)

  /** A profile row; None where the field is missing, of the wrong type or not finite. */
  datatype ProfileRow = ProfileRow(tokens: Option<int>, chunks: Option<int>, elapsed: Option<real>)

  datatype Fit = Fit(perToken: real, perChunk: real)

  const GUARD := 0.000000000001

  function Square(x: real): (y: real)
    ensures y >= 0.0
    ensures y == 0.0 <==> x == 0.0
  {
    SquareSign(x);
    x * x
  }

  function TT(ps: seq<Point>): real { if ps == [] then 0.0 else TT(ps[1..]) + Square(ps[0].t) }
  function CC(ps: seq<Point>): real { if ps == [] then 0.0 else CC(ps[1..]) + Square(ps[0].c) }
  function TC(ps: seq<Point>): real { if ps == [] then 0.0 else TC(ps[1..]) + ps[0].t * ps[0].c }
  function TY(ps: seq<Point>): real { if ps == [] then 0.0 else TY(ps[1..]) + ps[0].t * ps[0].y }
  function CY(ps: seq<Point>): real { if ps == [] then 0.0 else CY(ps[1..]) + ps[0].c * ps[0].y }
  function YY(ps: seq<Point>): real { if ps == [] then 0.0 else YY(ps[1..]) + ps[0].y * ps[0].y }

  function Residual(p: Point, f: Fit): real {
    f.perToken * p.t + f.perChunk * p.c - p.y
  }

  function SquaredError(ps: seq<Point>, f: Fit): real {
    if ps == [] then 0.0 else SquaredError(ps[1..], f) + Square(Residual(ps[0], f))
  }

  function Determinant(ps: seq<Point>): real {
    TT(ps) * CC(ps) - TC(ps) * TC(ps)
  }

  predicate Positive(ps: seq<Point>) {
    forall i :: 0 <= i < |ps| ==> ps[i].t > 0.0 && ps[i].c > 0.0 && ps[i].y > 0.0
  }

  predicate Independent(ps: seq<Point>) {
    Determinant(ps) > GUARD * TT(ps) * CC(ps)
  }

  /** The closed-form costs. */
  function SolveSums(tt: real, cc: real, tc: real, ty: real, cy: real): Fit
    requires tt * cc - tc * tc != 0.0
  {
    var determinant := tt * cc - tc * tc;
    Fit((ty * cc - cy * tc) / determinant, (cy * tt - ty * tc) / determinant)
  }

  function Solve(ps: seq<Point>): Fit
    requires Determinant(ps) != 0.0
  {
    SolveSums(TT(ps), CC(ps), TC(ps), TY(ps), CY(ps))
  }

  /** A quadratic form over the sums. */
  function Form(a: real, b: real, c: real, d: real, e: real, tt: real, tc: real, cc: real, ty: real, cy: real,
                yy: real): real {
    a * tt + b * tc + c * cc - d * ty - e * cy + yy
  }

  lemma {:induction false} FormAdds(a: real, b: real, c: real, d: real, e: real,
                                    tt: real, tc: real, cc: real, ty: real, cy: real, yy: real,
                                    tt': real, tc': real, cc': real, ty': real, cy': real, yy': real)
    ensures Form(a, b, c, d, e, tt + tt', tc + tc', cc + cc', ty + ty', cy + cy', yy + yy') ==
            Form(a, b, c, d, e, tt, tc, cc, ty, cy, yy) + Form(a, b, c, d, e, tt', tc', cc', ty', cy', yy')
  {
    Distribute(a, tt, tt');
    Distribute(b, tc, tc');
    Distribute(c, cc, cc');
    Distribute(d, ty, ty');
    Distribute(e, cy, cy');
  }

  function ErrorOf(f: Fit, tt: real, tc: real, cc: real, ty: real, cy: real, yy: real): real {
    var v, g := f.perToken, f.perChunk;
    Form(v * v, 2.0 * v * g, g * g, 2.0 * v, 2.0 * g, tt, tc, cc, ty, cy, yy)
  }

  function ErrorForm(ps: seq<Point>, f: Fit): real {
    ErrorOf(f, TT(ps), TC(ps), CC(ps), TY(ps), CY(ps), YY(ps))
  }

  lemma {:induction false} SquareOfResidual(v: real, g: real, p: Point)
    ensures Square(Residual(p, Fit(v, g))) ==
            Form(v * v, 2.0 * v * g, g * g, 2.0 * v, 2.0 * g, Square(p.t), p.t * p.c, Square(p.c), p.t * p.y, p.c * p.y,
                 p.y * p.y)
  {
  }

  /** The squared error is a quadratic form in the two coefficients. */
  lemma {:induction false} ErrorIsQuadratic(ps: seq<Point>, f: Fit)
    ensures SquaredError(ps, f) == ErrorForm(ps, f)
  {
    if ps != [] {
      var p, rest, v, g := ps[0], ps[1..], f.perToken, f.perChunk;
      ErrorIsQuadratic(rest, f);
      SquareOfResidual(v, g, p);
      FormAdds(v * v, 2.0 * v * g, g * g, 2.0 * v, 2.0 * g, TT(rest), TC(rest), CC(rest), TY(rest), CY(rest), YY(rest),
               Square(p.t), p.t * p.c, Square(p.c), p.t * p.y, p.c * p.y, p.y * p.y);
    }
  }

  lemma {:induction false} SquareSign(x: real)
    ensures x * x >= 0.0
    ensures x == 0.0 ==> x * x == 0.0
    ensures x * x == 0.0 ==> x == 0.0
  {
    if x > 0.0 {
      assert x * x > 0.0;
    } else if x < 0.0 {
      assert (-x) * (-x) > 0.0;
    }
    if x * x == 0.0 && x != 0.0 {
      ZeroProduct(x, x);
    }
  }

  lemma {:induction false} ZeroProduct(x: real, y: real)
    requires x * y == 0.0 && y != 0.0
    ensures x == 0.0
  {
  }

  lemma {:induction false} Distribute(a: real, x: real, y: real)
    ensures a * (x + y) == a * x + a * y
  {
  }

  /** Cauchy-Schwarz: the determinant is never negative. */
  lemma {:induction false} DeterminantIsNonnegative(ps: seq<Point>)
    ensures Determinant(ps) >= 0.0 && TT(ps) >= 0.0 && CC(ps) >= 0.0
    ensures ps != [] && ps[0].t > 0.0 ==> TT(ps) > 0.0
  {
    SumsOfSquares(ps);
    var tt, tc, cc := TT(ps), TC(ps), CC(ps);
    if tt == 0.0 {
      ZeroColumn(ps);
    } else {
      var s := tc / tt;
      ColumnResidual(ps, s);
      assert s * tt == tc;
      assert s * s * tt == s * tc;
      assert cc - s * tc >= 0.0;
      assert tt * (cc - s * tc) == tt * cc - tc * tc;
    }
  }

  lemma {:induction false} SumsOfSquares(ps: seq<Point>)
    ensures TT(ps) >= 0.0 && CC(ps) >= 0.0
    ensures ps != [] && ps[0].t > 0.0 ==> TT(ps) > 0.0
  {
    if ps != [] {
      SumsOfSquares(ps[1..]);
    }
  }

  lemma {:induction false} ZeroColumn(ps: seq<Point>)
    requires TT(ps) == 0.0
    ensures TC(ps) == 0.0
  {
    if ps != [] {
      SumsOfSquares(ps[1..]);
      assert ps[0].t == 0.0;
      ZeroColumn(ps[1..]);
    }
  }

  /** The sum of (c - s * t) squared. */
  lemma {:induction false} ColumnResidual(ps: seq<Point>, s: real)
    ensures CC(ps) - 2.0 * s * TC(ps) + s * s * TT(ps) >= 0.0
  {
    if ps != [] {
      ColumnResidual(ps[1..], s);
      var p := ps[0];
      SquareOfDifference(p.c, s, p.t);
      Distribute(2.0 * s, TC(ps[1..]), p.t * p.c);
      Distribute(s * s, TT(ps[1..]), Square(p.t));
    }
  }

  lemma {:induction false} SquareOfDifference(c: real, s: real, t: real)
    ensures Square(c) - 2.0 * s * (t * c) + s * s * Square(t) >= 0.0
  {
    assert Square(c - s * t) == Square(c) - 2.0 * s * (t * c) + s * s * Square(t);
  }

  lemma {:induction false} ProportionalSums(ps: seq<Point>, s: real)
    requires forall i :: 0 <= i < |ps| ==> ps[i].c == s * ps[i].t
    ensures TC(ps) == s * TT(ps) && CC(ps) == s * s * TT(ps)
  {
    if ps != [] {
      ProportionalSums(ps[1..], s);
      var p := ps[0];
      assert p.t * p.c == s * Square(p.t);
      assert Square(p.c) == s * s * Square(p.t);
      Distribute(s, TT(ps[1..]), Square(p.t));
      Distribute(s * s, TT(ps[1..]), Square(p.t));
    }
  }

  /** Dependent columns never pass the guard. */
  lemma {:induction false} DependentIsRefused(ps: seq<Point>, s: real)
    requires forall i :: 0 <= i < |ps| ==> ps[i].c == s * ps[i].t
    ensures Determinant(ps) == 0.0 && !Independent(ps)
  {
    ProportionalSums(ps, s);
    DeterminantIsNonnegative(ps);
    var tt := TT(ps);
    assert tt * (s * s * tt) == (s * tt) * (s * tt);
    assert GUARD * TT(ps) * CC(ps) >= 0.0 by {
      assert TT(ps) * CC(ps) >= 0.0;
    }
  }

  lemma {:induction false} IndependentIsPositive(ps: seq<Point>)
    requires Independent(ps)
    ensures Determinant(ps) > 0.0
  {
    SumsOfSquares(ps);
    assert TT(ps) * CC(ps) >= 0.0;
  }

  lemma {:induction false} Cramer(tt: real, cc: real, tc: real, ty: real, cy: real, d: real, v: real, f: real)
    requires d == tt * cc - tc * tc && d != 0.0
    requires v == (ty * cc - cy * tc) / d && f == (cy * tt - ty * tc) / d
    ensures v * tt + f * tc == ty && v * tc + f * cc == cy
  {
    var a, b := ty * cc - cy * tc, cy * tt - ty * tc;
    assert v * d == a && f * d == b;
    assert (v * tt + f * tc) * d == (v * d) * tt + (f * d) * tc;
    assert a * tt + b * tc == ty * (cc * tt) - ty * (tc * tc);
    assert ty * d == ty * (tt * cc) - ty * (tc * tc);
    assert (v * tc + f * cc) * d == (v * d) * tc + (f * d) * cc;
    assert a * tc + b * cc == cy * (tt * cc) - cy * (tc * tc);
    assert cy * d == cy * (tt * cc) - cy * (tc * tc);
    CancelFactor(v * tt + f * tc, ty, d);
    CancelFactor(v * tc + f * cc, cy, d);
  }

  lemma {:induction false} CancelFactor(x: real, y: real, d: real)
    requires d != 0.0 && x * d == y * d
    ensures x == y
  {
    assert (x - y) * d == 0.0;
  }

  function Gap(tt: real, cc: real, tc: real, dv: real, df: real): real {
    dv * dv * tt + 2.0 * dv * df * tc + df * df * cc
  }

  /** How much worse any other pair is: a form in its distance from the solution. */
  lemma {:induction false} ErrorGap(tt: real, cc: real, tc: real, ty: real, cy: real, yy: real, f: Fit, g: Fit)
    requires f.perToken * tt + f.perChunk * tc == ty && f.perToken * tc + f.perChunk * cc == cy
    ensures ErrorOf(g, tt, tc, cc, ty, cy, yy) ==
            ErrorOf(f, tt, tc, cc, ty, cy, yy) + Gap(tt, cc, tc, g.perToken - f.perToken, g.perChunk - f.perChunk)
  {
    FormGap(tt, cc, tc, ty, cy, yy, f.perToken, f.perChunk, g.perToken, g.perChunk);
  }

  lemma {:induction false} FormGap(tt: real, cc: real, tc: real, ty: real, cy: real, yy: real, v: real, f: real,
                                    w: real, g: real)
    requires v * tt + f * tc == ty && v * tc + f * cc == cy
    ensures Form(w * w, 2.0 * w * g, g * g, 2.0 * w, 2.0 * g, tt, tc, cc, ty, cy, yy) ==
            Form(v * v, 2.0 * v * f, f * f, 2.0 * v, 2.0 * f, tt, tc, cc, ty, cy, yy)
              + Gap(tt, cc, tc, w - v, g - f)
  {
    assert v * ty == v * (v * tt) + v * (f * tc);
    assert w * ty == w * (v * tt) + w * (f * tc);
    assert f * cy == f * (v * tc) + f * (f * cc);
    assert g * cy == g * (v * tc) + g * (f * cc);
    assert 2.0 * w * ty == 2.0 * (w * ty) && 2.0 * v * ty == 2.0 * (v * ty);
    assert 2.0 * g * cy == 2.0 * (g * cy) && 2.0 * f * cy == 2.0 * (f * cy);
  }

  lemma {:induction false} DefiniteSigns(tt: real, q: real, s: real, x: real, d: real)
    requires tt > 0.0 && d > 0.0 && tt * q == Square(s) + Square(x) * d
    ensures q >= 0.0 && (q == 0.0 ==> s == 0.0 && x == 0.0)
  {
    ProductSign(Square(x), d);
    ProductSign(tt, if q < 0.0 then -q else q);
    assert tt * q == if q < 0.0 then -(tt * (-q)) else tt * q;
  }

  lemma {:induction false} ProductSign(x: real, y: real)
    requires x >= 0.0 && y >= 0.0
    ensures x * y >= 0.0
    ensures x * y == 0.0 <==> x == 0.0 || y == 0.0
  {
  }

  lemma {:induction false} FormIsDefinite(tt: real, cc: real, tc: real, dv: real, df: real)
    requires tt > 0.0 && tt * cc - tc * tc > 0.0
    ensures Gap(tt, cc, tc, dv, df) >= 0.0
    ensures Gap(tt, cc, tc, dv, df) == 0.0 ==> dv == 0.0 && df == 0.0
  {
    var q := dv * dv * tt + 2.0 * dv * df * tc + df * df * cc;
    var s, d := dv * tt + df * tc, tt * cc - tc * tc;
    assert tt * q == Square(s) + Square(df) * d by {
      assert s * s == (dv * tt) * (dv * tt) + 2.0 * (dv * tt) * (df * tc) + (df * tc) * (df * tc);
      assert tt * (dv * dv * tt) == (dv * tt) * (dv * tt);
      assert tt * (2.0 * dv * df * tc) == 2.0 * (dv * tt) * (df * tc);
      assert tt * (df * df * cc) == df * df * (tt * cc);
      assert df * df * d == df * df * (tt * cc) - (df * tc) * (df * tc);
    }
    DefiniteSigns(tt, q, s, df, d);
    if q == 0.0 {
      assert dv * tt == 0.0;
      ZeroProduct(dv, tt);
    }
  }

  /** No pair of coefficients has a smaller squared error, and no other pair has as small a one. */
  ghost predicate UniqueMinimiser(ps: seq<Point>, f: Fit) {
    forall g: Fit :: SquaredError(ps, f) <= SquaredError(ps, g)
        && (SquaredError(ps, f) == SquaredError(ps, g) ==> f == g)
  }

  /** The normal equations' solution is the unique minimiser over all real pairs. */
  lemma {:induction false} SolveMinimises(ps: seq<Point>)
    requires Determinant(ps) > 0.0
    ensures UniqueMinimiser(ps, Solve(ps))
  {
    var f := Solve(ps);
    forall g: Fit ensures SquaredError(ps, f) <= SquaredError(ps, g)
        && (SquaredError(ps, f) == SquaredError(ps, g) ==> f == g) {
      NoBetter(ps, g);
    }
  }

  lemma {:induction false} NoBetter(ps: seq<Point>, g: Fit)
    requires Determinant(ps) > 0.0
    ensures SquaredError(ps, Solve(ps)) <= SquaredError(ps, g)
    ensures SquaredError(ps, Solve(ps)) == SquaredError(ps, g) ==> g == Solve(ps)
  {
    SolveIsNormal(ps);
    NormalIsMinimal(ps, Solve(ps), g);
  }

  ghost predicate Normal(ps: seq<Point>, f: Fit) {
    f.perToken * TT(ps) + f.perChunk * TC(ps) == TY(ps) && f.perToken * TC(ps) + f.perChunk * CC(ps) == CY(ps)
  }

  lemma {:induction false} SumsAreSolved(tt: real, cc: real, tc: real, ty: real, cy: real)
    requires tt * cc - tc * tc != 0.0
    ensures var f := SolveSums(tt, cc, tc, ty, cy);
            f.perToken * tt + f.perChunk * tc == ty && f.perToken * tc + f.perChunk * cc == cy
  {
    var f := SolveSums(tt, cc, tc, ty, cy);
    Cramer(tt, cc, tc, ty, cy, tt * cc - tc * tc, f.perToken, f.perChunk);
  }

  lemma {:induction false} SolveIsNormal(ps: seq<Point>)
    requires Determinant(ps) > 0.0
    ensures Normal(ps, Solve(ps))
  {
    hide SolveSums, TT, CC, TC, TY, CY;
    SumsAreSolved(TT(ps), CC(ps), TC(ps), TY(ps), CY(ps));
  }

  lemma {:induction false} NormalIsMinimal(ps: seq<Point>, f: Fit, g: Fit)
    requires Determinant(ps) > 0.0 && Normal(ps, f)
    ensures SquaredError(ps, f) <= SquaredError(ps, g)
    ensures SquaredError(ps, f) == SquaredError(ps, g) ==> g == f
  {
    ErrorIsQuadratic(ps, f);
    ErrorIsQuadratic(ps, g);
    PositiveColumn(ps);
    FormIsMinimal(TT(ps), CC(ps), TC(ps), TY(ps), CY(ps), YY(ps), f, g);
  }

  lemma {:induction false} FormIsMinimal(tt: real, cc: real, tc: real, ty: real, cy: real, yy: real, f: Fit, g: Fit)
    requires tt > 0.0 && tt * cc - tc * tc > 0.0
    requires f.perToken * tt + f.perChunk * tc == ty && f.perToken * tc + f.perChunk * cc == cy
    ensures ErrorOf(f, tt, tc, cc, ty, cy, yy) <= ErrorOf(g, tt, tc, cc, ty, cy, yy)
    ensures ErrorOf(f, tt, tc, cc, ty, cy, yy) == ErrorOf(g, tt, tc, cc, ty, cy, yy) ==> f == g
  {
    hide Gap, Form, ErrorOf;
    ErrorGap(tt, cc, tc, ty, cy, yy, f, g);
    FormIsDefinite(tt, cc, tc, g.perToken - f.perToken, g.perChunk - f.perChunk);
  }

  lemma {:induction false} PositiveColumn(ps: seq<Point>)
    requires Determinant(ps) > 0.0
    ensures TT(ps) > 0.0
  {
    SumsOfSquares(ps);
    if TT(ps) == 0.0 {
      ZeroColumn(ps);
    }
  }

  lemma {:induction false} ExactError(ps: seq<Point>, f: Fit)
    requires forall i :: 0 <= i < |ps| ==> Residual(ps[i], f) == 0.0
    ensures SquaredError(ps, f) == 0.0
  {
    if ps != [] {
      ExactError(ps[1..], f);
    }
  }

  lemma {:induction false} ErrorIsNonnegative(ps: seq<Point>, f: Fit)
    ensures SquaredError(ps, f) >= 0.0
  {
    if ps != [] {
      ErrorIsNonnegative(ps[1..], f);
    }
  }

  /** Exactly linear data give back their own coefficients. */
  lemma {:induction false} ExactDataIsRecovered(ps: seq<Point>, f: Fit)
    requires Determinant(ps) > 0.0 && forall i :: 0 <= i < |ps| ==> Residual(ps[i], f) == 0.0
    ensures Solve(ps) == f
  {
    ExactError(ps, f);
    ErrorIsNonnegative(ps, Solve(ps));
    NoBetter(ps, f);
  }

  // ---- the fold

  function PointOf(row: ProfileRow, tokens: Option<int>): (p: Option<Point>)
    ensures p.Some? ==> p.value.t > 0.0 && p.value.c > 0.0 && p.value.y > 0.0
  {
    var t := if row.tokens.Some? then row.tokens else tokens;
    if t.Some? && t.value > 0 && row.chunks.Some? && row.chunks.value > 0 && row.elapsed.Some?
        && row.elapsed.value > 0.0 then
      Some(Point(t.value as real, row.chunks.value as real, row.elapsed.value))
    else None
  }

  /** A row needs positive chunks, a positive time, and positive tokens of its own or else of the whole profile. */
  lemma {:induction false} PointAnswer(row: ProfileRow, tokens: Option<int>)
    ensures PointOf(row, tokens).Some? <==>
            && (exists t :: t > 0 && (row.tokens == Some(t) || (row.tokens == None && tokens == Some(t))))
            && (exists n :: n > 0 && row.chunks == Some(n)) && exists y :: y > 0.0 && row.elapsed == Some(y)
    ensures PointOf(row, tokens).Some? ==>
              var p := PointOf(row, tokens).value;
              && (row.tokens.Some? ==> p.t == row.tokens.value as real)
              && (row.tokens.None? && tokens.Some? ==> p.t == tokens.value as real)
              && (row.chunks.Some? ==> p.c == row.chunks.value as real) && row.elapsed == Some(p.y)
  {
  }

  /** The guard: one part in 10^12 of the product of the two sums of squares. */
  lemma {:induction false} GuardAnswer(ps: seq<Point>)
    ensures Independent(ps) <==> TT(ps) * CC(ps) - TC(ps) * TC(ps) > 0.000000000001 * TT(ps) * CC(ps)
  {
  }

  /** The rows are these points, one by one. */
  ghost predicate PointsOf(rows: seq<ProfileRow>, tokens: Option<int>, ps: seq<Point>) {
    |ps| == |rows| && forall i :: 0 <= i < |rows| ==> PointOf(rows[i], tokens) == Some(ps[i])
  }

  method Points(rows: seq<ProfileRow>, tokens: Option<int>) returns (ps: Option<seq<Point>>)
    ensures ps.Some? ==> PointsOf(rows, tokens, ps.value) && Positive(ps.value)
    ensures ps.None? ==> exists i :: 0 <= i < |rows| && PointOf(rows[i], tokens).None?
  {
    var points: seq<Point> := [];
    for i := 0 to |rows|
      invariant |points| == i && Positive(points)
      invariant forall j :: 0 <= j < i ==> PointOf(rows[j], tokens) == Some(points[j])
    {
      var p := PointOf(rows[i], tokens);
      if p.None? {
        return None;
      }
      points := points + [p.value];
    }
    ps := Some(points);
  }

  /** What the fold computes from rows, when it computes: the unique minimiser, accepted if its costs make sense. */
  ghost predicate FitsRows(rows: seq<ProfileRow>, tokens: Option<int>, ps: seq<Point>, f: Fit) {
    PointsOf(rows, tokens, ps) && |ps| >= 2 && Independent(ps) && UniqueMinimiser(ps, f) && f.perToken > 0.0
    && f.perChunk >= 0.0
  }

  /**
   The artifact's own fit is taken as it is. Otherwise a fit is returned exactly when there are two
   or more complete rows with independent columns whose least-squares costs are sensible, and it is
   those rows' unique minimiser.
   */
  method FoldPrefill(saved: Option<Fit>, rows: seq<ProfileRow>, tokens: Option<int>) returns (r: Option<Fit>)
    ensures saved.Some? ==> r == saved
    ensures saved.None? && r.Some? ==> exists ps :: FitsRows(rows, tokens, ps, r.value)
    ensures saved.None? && r.None? ==> forall ps, f :: !FitsRows(rows, tokens, ps, f)
  {
    if saved.Some? {
      return saved;
    }
    if |rows| < 2 {
      return None;
    }
    var points := Points(rows, tokens);
    if points.None? {
      return None;
    }
    var ps := points.value;
    forall other | PointsOf(rows, tokens, other) ensures other == ps {
      forall i | 0 <= i < |ps| ensures other[i] == ps[i] {
        assert PointOf(rows[i], tokens) == Some(ps[i]);
      }
    }
    if Determinant(ps) <= GUARD * TT(ps) * CC(ps) {
      return None;
    }
    IndependentIsPositive(ps);
    SolveMinimises(ps);
    var f := Solve(ps);
    if f.perToken <= 0.0 || f.perChunk < 0.0 {
      forall g | UniqueMinimiser(ps, g) ensures g == f {
        assert SquaredError(ps, g) <= SquaredError(ps, f);
      }
      return None;
    }
    assert FitsRows(rows, tokens, ps, f);
    return Some(f);
  }
}
