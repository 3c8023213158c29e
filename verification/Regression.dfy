/** The linear regression of rem/rem_model.cc:242-274, over exact reals. Products are
    named, so that each proof only meets the ones it is about. */
module Regression {
  import opened Reals

  /** A sample: a time and the value measured then. */
  datatype Point = Point(t: real, v: real)

  datatype Sums = Sums(n: real, x: real, y: real, xx: real, xy: real)

  /** One turn of the regression loop. */
  function Plus(s: Sums, p: Point): Sums {
    Sums(s.n + 1.0, s.x + p.t, s.y + p.v, s.xx + p.t * p.t, s.xy + p.t * p.v)
  }

  function SumsOf(ps: seq<Point>): Sums {
    if ps == [] then Sums(0.0, 0.0, 0.0, 0.0, 0.0) else Plus(SumsOf(ps[..|ps| - 1]), ps[|ps| - 1])
  }

  function Square(x: real): real { x * x }

  function Error(p: Point, m: real, b: real): real { p.v - (m * p.t + b) }

  /** The sum of squared residuals of the line `m * t + b`. */
  function Residuals(ps: seq<Point>, m: real, b: real): real {
    if ps == [] then 0.0 else Residuals(ps[..|ps| - 1], m, b) + Square(Error(ps[|ps| - 1], m, b))
  }

  function Abs(x: real): real { if x < 0.0 then -x else x }

  function TotalDeviation(ps: seq<Point>, m: real, b: real): real {
    if ps == [] then 0.0 else TotalDeviation(ps[..|ps| - 1], m, b) + Abs(Error(ps[|ps| - 1], m, b))
  }

  function Denominator(s: Sums): real { s.n * s.xx - s.x * s.x }

  function Slope(s: Sums): real
    requires Denominator(s) != 0.0
  {
    (s.n * s.xy - s.x * s.y) / Denominator(s)
  }

  function Intercept(s: Sums): real
    requires Denominator(s) != 0.0
  {
    (s.y * s.xx - s.x * s.xy) / Denominator(s)
  }

  // ----- The denominator

  ghost predicate SameTime(ps: seq<Point>, t: real) { forall p :: p in ps ==> p.t == t }

  ghost predicate TwoTimes(ps: seq<Point>) { exists p, q :: p in ps && q in ps && p.t != q.t }

  lemma SquareIsPositive(x: real)
    ensures Square(x) >= 0.0 && (Square(x) == 0.0 <==> x == 0.0)
  {
    SquareSign(x);
  }

  /** The sum of squared distances of the times from `t`. */
  function Spread(ps: seq<Point>, t: real): real {
    if ps == [] then 0.0 else Spread(ps[..|ps| - 1], t) + Square(ps[|ps| - 1].t - t)
  }

  lemma {:induction false} SpreadIsPositive(ps: seq<Point>, t: real)
    ensures Spread(ps, t) >= 0.0 && (Spread(ps, t) == 0.0 <==> SameTime(ps, t))
  {
    if ps != [] {
      var before, p := ps[..|ps| - 1], ps[|ps| - 1];
      SpreadIsPositive(before, t);
      SquareIsPositive(p.t - t);
      assert ps == before + [p];
    }
  }

  function Quadratic(s: Sums, t: real): real { s.xx - 2.0 * t * s.x + t * t * s.n }

  lemma QuadraticStep(s: Sums, p: Point, t: real)
    ensures Quadratic(Plus(s, p), t) == Quadratic(s, t) + Square(p.t - t)
  {
  }

  lemma {:induction false} SpreadIsQuadratic(ps: seq<Point>, t: real)
    ensures Spread(ps, t) == Quadratic(SumsOf(ps), t)
  {
    if ps != [] {
      SpreadIsQuadratic(ps[..|ps| - 1], t);
      QuadraticStep(SumsOf(ps[..|ps| - 1]), ps[|ps| - 1], t);
    }
  }

  lemma DenominatorStep(s: Sums, p: Point)
    ensures Denominator(Plus(s, p)) == Denominator(s) + Quadratic(s, p.t)
  {
  }

  lemma TwoTimesStep(before: seq<Point>, p: Point)
    ensures TwoTimes(before + [p]) <==> TwoTimes(before) || !SameTime(before, p.t)
  {
    var ps := before + [p];
    if TwoTimes(before) {
      var q, r :| q in before && r in before && q.t != r.t;
      assert q in ps && r in ps;
    } else if !SameTime(before, p.t) {
      var q :| q in before && q.t != p.t;
      assert q in ps && p in ps;
    } else {
      assert SameTime(ps, p.t);
    }
  }

  /** The denominator is never negative, and it is zero exactly when all times agree:
      each point adds its squared distances from the times before it. */
  lemma {:induction false} DenominatorIsPositive(ps: seq<Point>)
    ensures Denominator(SumsOf(ps)) >= 0.0
    ensures Denominator(SumsOf(ps)) > 0.0 <==> TwoTimes(ps)
  {
    if ps != [] {
      var before, p := ps[..|ps| - 1], ps[|ps| - 1];
      assert ps == before + [p];
      DenominatorIsPositive(before);
      SpreadIsPositive(before, p.t);
      SpreadIsQuadratic(before, p.t);
      DenominatorStep(SumsOf(before), p);
      TwoTimesStep(before, p);
    }
  }

  // ----- The minimum

  /** The two normal equations say that these are zero. */
  function NormalX(s: Sums, m: real, b: real): real { m * s.xx + b * s.x - s.xy }

  function NormalY(s: Sums, m: real, b: real): real { m * s.x + b * s.n - s.y }

  function Cross(d: real, e: real): real { 2.0 * d * e }

  /** The sum of `(dm * t + db)^2` over the times. */
  function Form(ps: seq<Point>, dm: real, db: real): real {
    if ps == [] then 0.0 else Form(ps[..|ps| - 1], dm, db) + Square(Line(dm, db, ps[|ps| - 1].t))
  }

  function Line(m: real, b: real, t: real): real { m * t + b }

  lemma OnePointShift(p: Point, m: real, b: real, dm: real, db: real)
    ensures Square(Error(p, m + dm, b + db))
         == Square(Error(p, m, b)) + Square(Line(dm, db, p.t))
            - Cross(dm, p.t * Error(p, m, b)) - Cross(db, Error(p, m, b))
  {
  }

  lemma NormalStep(s: Sums, p: Point, m: real, b: real)
    ensures NormalX(Plus(s, p), m, b) == NormalX(s, m, b) - p.t * Error(p, m, b)
    ensures NormalY(Plus(s, p), m, b) == NormalY(s, m, b) - Error(p, m, b)
  {
  }

  lemma CrossMinus(d: real, x: real, y: real)
    ensures Cross(d, x - y) == Cross(d, x) - Cross(d, y)
  {
  }

  /** Residuals of one line through those of another: the difference is a sum of squares
      plus the two normal equations. */
  lemma {:induction false} ResidualsShift(ps: seq<Point>, m: real, b: real, dm: real, db: real)
    ensures Residuals(ps, m + dm, b + db)
         == Residuals(ps, m, b) + Form(ps, dm, db) + Cross(dm, NormalX(SumsOf(ps), m, b))
           + Cross(db, NormalY(SumsOf(ps), m, b))
  {
    if ps != [] {
      var s, p := SumsOf(ps[..|ps| - 1]), ps[|ps| - 1];
      ResidualsShift(ps[..|ps| - 1], m, b, dm, db);
      OnePointShift(p, m, b, dm, db);
      NormalStep(s, p, m, b);
      CrossMinus(dm, NormalX(s, m, b), p.t * Error(p, m, b));
      CrossMinus(db, NormalY(s, m, b), Error(p, m, b));
    }
  }

  lemma NormalTimes(s: Sums, m: real, b: real)
    requires m * Denominator(s) == s.n * s.xy - s.x * s.y && b * Denominator(s) == s.y * s.xx - s.x * s.xy
    ensures NormalX(s, m, b) * Denominator(s) == 0.0 && NormalY(s, m, b) * Denominator(s) == 0.0
  {
    var d := Denominator(s);
    assert NormalX(s, m, b) * d == (m * d) * s.xx + (b * d) * s.x - s.xy * d;
    assert NormalY(s, m, b) * d == (m * d) * s.x + (b * d) * s.n - s.y * d;
  }

  /** The closed form solves the normal equations. */
  lemma ClosedFormIsNormal(s: Sums)
    requires Denominator(s) != 0.0
    ensures NormalX(s, Slope(s), Intercept(s)) == 0.0 && NormalY(s, Slope(s), Intercept(s)) == 0.0
  {
    NormalTimes(s, Slope(s), Intercept(s));
    Cancel(Denominator(s), NormalX(s, Slope(s), Intercept(s)));
    Cancel(Denominator(s), NormalY(s, Slope(s), Intercept(s)));
  }

  lemma {:induction false} FormIsPositive(ps: seq<Point>, dm: real, db: real)
    ensures Form(ps, dm, db) >= 0.0
    ensures Form(ps, dm, db) == 0.0 <==> forall p :: p in ps ==> Line(dm, db, p.t) == 0.0
  {
    if ps != [] {
      var before, p := ps[..|ps| - 1], ps[|ps| - 1];
      FormIsPositive(before, dm, db);
      SquareIsPositive(Line(dm, db, p.t));
      assert ps == before + [p];
    }
  }

  /** A line that vanishes at two times vanishes everywhere. */
  lemma TwoZeros(m: real, b: real, t: real, u: real)
    requires t != u && Line(m, b, t) == 0.0 && Line(m, b, u) == 0.0
    ensures m == 0.0 && b == 0.0
  {
    assert m * (t - u) == 0.0;
    Cancel(t - u, m);
  }

  lemma NormalLineIsLeast(ps: seq<Point>, m: real, b: real, dm: real, db: real)
    requires TwoTimes(ps) && NormalX(SumsOf(ps), m, b) == 0.0 && NormalY(SumsOf(ps), m, b) == 0.0
    ensures Residuals(ps, m, b) <= Residuals(ps, m + dm, b + db)
    ensures Residuals(ps, m, b) == Residuals(ps, m + dm, b + db) ==> dm == 0.0 && db == 0.0
  {
    ResidualsShift(ps, m, b, dm, db);
    FormIsPositive(ps, dm, db);
    if Form(ps, dm, db) == 0.0 {
      var p, q :| p in ps && q in ps && p.t != q.t;
      TwoZeros(dm, db, p.t, q.t);
    }
  }

  /** With two distinct times the closed form is the one line with the least sum of
      squared residuals. */
  lemma ClosedFormIsLeast(ps: seq<Point>, m: real, b: real)
    requires TwoTimes(ps)
    ensures Denominator(SumsOf(ps)) > 0.0
    ensures Residuals(ps, Slope(SumsOf(ps)), Intercept(SumsOf(ps))) <= Residuals(ps, m, b)
    ensures Residuals(ps, Slope(SumsOf(ps)), Intercept(SumsOf(ps))) == Residuals(ps, m, b)
            ==> m == Slope(SumsOf(ps)) && b == Intercept(SumsOf(ps))
  {
    DenominatorIsPositive(ps);
    ClosedFormIsNormal(SumsOf(ps));
    var m0, b0 := Slope(SumsOf(ps)), Intercept(SumsOf(ps));
    NormalLineIsLeast(ps, m0, b0, m - m0, b - b0);
  }

  // ----- Data on a line

  lemma ZeroError(p: Point, m: real, b: real)
    requires p.v == Line(m, b, p.t)
    ensures Error(p, m, b) == 0.0 && Square(Error(p, m, b)) == 0.0 && p.t * Error(p, m, b) == 0.0
  {
  }

  lemma {:induction false} OnLineSums(ps: seq<Point>, m: real, b: real)
    requires forall p :: p in ps ==> p.v == Line(m, b, p.t)
    ensures NormalX(SumsOf(ps), m, b) == 0.0 && NormalY(SumsOf(ps), m, b) == 0.0
    ensures TotalDeviation(ps, m, b) == 0.0
  {
    if ps != [] {
      var p := ps[|ps| - 1];
      assert p in ps;
      OnLineSums(ps[..|ps| - 1], m, b);
      NormalStep(SumsOf(ps[..|ps| - 1]), p, m, b);
      ZeroError(p, m, b);
    }
  }

  /** Data exactly on a line gives that line back, with no deviation. */
  lemma OnLineIsRecovered(ps: seq<Point>, m: real, b: real)
    requires TwoTimes(ps) && forall p :: p in ps ==> p.v == Line(m, b, p.t)
    ensures Denominator(SumsOf(ps)) > 0.0
    ensures Slope(SumsOf(ps)) == m && Intercept(SumsOf(ps)) == b && TotalDeviation(ps, m, b) == 0.0
  {
    OnLineSums(ps, m, b);
    ClosedFormIsLeast(ps, m, b);
    var m0, b0 := Slope(SumsOf(ps)), Intercept(SumsOf(ps));
    NormalLineIsLeast(ps, m, b, m0 - m, b0 - b);
  }
}
