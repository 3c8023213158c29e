/** The battery prediction model of rem/rem_model.cc: when a new measurement makes the
    model fit itself again. Reals stand for doubles, with the one NaN that can arise. */
module BatteryModel {
  import opened Regression

  const MAX_THRESH_DIFF: real := 30.0
  const MIN_DEVIATION: real := 6.0
  const NUM_DEVIATIONS: real := 4.0
  const MAX_DIFF_COUNT := 4
  const INIT_COUNT := 3
  const ALPHA: real := 0.9

  datatype ModelState = INIT | STABLE | UNSTABLE | BAD | OLD

  /** The fitted parameters; a regression over a single time divides zero by zero. */
  datatype Fit = NotANumber | Fitted(mu: real, beta: real, sigma: real)

  datatype Number = Nan | Num(value: real)

  /** `performRegression` and `calculateDeviations`. */
  function FitOf(ps: seq<Point>): Fit {
    var s := SumsOf(ps);
    if Denominator(s) == 0.0 || ps == [] then NotANumber
    else Fitted(Slope(s), Intercept(s), TotalDeviation(ps, Slope(s), Intercept(s)) / (|ps| as real))
  }

  /** `getDataPoint`. */
  function Predict(fit: Fit, state: ModelState, t: real): Number {
    if state != STABLE then Num(-1.0)
    else match fit
      case NotANumber => Nan
      case Fitted(mu, beta, _) => Num(Line(mu, beta, t))
  }

  function Deviation(fit: Fit, state: ModelState, p: Point): Number {
    match Predict(fit, state, p.t)
    case Nan => Nan
    case Num(expected) => Num(Abs(p.v - expected))
  }

  /** Any comparison with NaN is false. */
  predicate Exceeds(x: Number, y: Number) { x.Num? && y.Num? && x.value > y.value }

  function Threshold(fit: Fit): Number {
    match fit
    case NotANumber => Nan
    case Fitted(_, _, sigma) =>
      Num(if sigma * NUM_DEVIATIONS < MIN_DEVIATION then MIN_DEVIATION else sigma * NUM_DEVIATIONS)
  }

  predicate Miss(fit: Fit, state: ModelState, p: Point) { Exceeds(Deviation(fit, state, p), Num(MAX_THRESH_DIFF)) }

  predicate Bad(fit: Fit, state: ModelState, p: Point) {
    Miss(fit, state, p) || Exceeds(Deviation(fit, state, p), Threshold(fit))
  }

  function Apart(x: real, y: real): real { if x < y then y - x else x - y }

  /** Within 30 of what was expected, and within 6 or four deviations. */
  predicate IsNear(v: real, expected: real, sigma: real) {
    Apart(v, expected) <= 30.0 && (Apart(v, expected) <= 6.0 || Apart(v, expected) <= 4.0 * sigma)
  }

  /** What the decisions depend on. */
  datatype Model = Model(points: seq<Point>, averages: seq<real>, state: ModelState, difCount: nat, fit: Fit)

  /** The points a refit uses: the last MAX_DIFF_COUNT. */
  function LastPoints(ps: seq<Point>): seq<Point>
    requires |ps| >= MAX_DIFF_COUNT
  {
    ps[|ps| - MAX_DIFF_COUNT..]
  }

  function NextAverage(averages: seq<real>, v: real): real {
    if averages == [] then v else averages[|averages| - 1] * (1.0 - ALPHA) + v * ALPHA
  }

  /** How a point is received: before initialisation, as expected, off by more than the
      threshold, or missed by more than 30. */
  datatype Verdict = Early | Good | Off | Missed

  function VerdictOf(m: Model, p: Point): Verdict {
    if |m.points| < INIT_COUNT then Early
    else if Miss(m.fit, m.state, p) then Missed
    else if Bad(m.fit, m.state, p) then Off
    else Good
  }

  /** The counter of bad points: a miss counts for four at once, and nothing but a good
      point takes it back to zero. */
  function NextCount(count: nat, v: Verdict): nat {
    match v
    case Early => count
    case Good => 0
    case Off => count + 1
    case Missed => MAX_DIFF_COUNT + 1
  }

  /** `addDataPoint`. */
  function AddPoint(m: Model, p: Point): Model {
    var ps, avgs, v := m.points + [p], m.averages + [NextAverage(m.averages, p.v)], VerdictOf(m, p);
    var count := NextCount(m.difCount, v);
    if v == Early then
      if |ps| == INIT_COUNT then Model(ps, avgs, STABLE, count, FitOf(ps)) else Model(ps, avgs, m.state, count, m.fit)
    else if v == Good then Model(ps, avgs, STABLE, count, m.fit)
    else if count >= MAX_DIFF_COUNT then Model(ps, avgs, STABLE, count, FitOf(LastPoints(ps)))
    else Model(ps, avgs, UNSTABLE, count, m.fit)
  }

  // ----- The class

  class PredictionModel {
    var data: seq<real>
    var times: seq<real>
    var weightedAverages: seq<real>
    var dataCount: int
    var windowSize: int
    var difCount: nat
    var state: ModelState
    var modelParameters: Fit
    const lastDeviation: real
    var needsToBeBroadcasted: bool

    ghost predicate Valid()
      reads this
    {
      && |data| == |times| == |weightedAverages| == dataCount && lastDeviation == 0.0
    }

    ghost function Points(): seq<Point>
      requires Valid()
      reads this
    {
      Zip(times, data)
    }

    ghost function View(): Model
      requires Valid()
      reads this
    {
      Model(Points(), weightedAverages, state, difCount, modelParameters)
    }

    constructor ()
      ensures Valid() && View() == Model([], [], INIT, 0, NotANumber)
    {
      data, times, weightedAverages := [], [], [];
      dataCount, windowSize, difCount, lastDeviation := 0, 0, 0, 0.0;
      state, modelParameters, needsToBeBroadcasted := INIT, NotANumber, false;
    }

    /** One call changes the model exactly as `AddPoint` says, and announces a new fit. */
    method AddDataPoint(value: real, time: real)
      requires Valid()
      modifies this
      ensures Valid() && View() == AddPoint(old(View()), Point(time, value))
      ensures var refit := old(dataCount) >= 3 && View().difCount >= 4;
              && windowSize == (if refit then 4 else old(windowSize) + 1)
              && needsToBeBroadcasted == (old(needsToBeBroadcasted) || refit || dataCount == 3)
    {
      PushPoint(value, time);
      if dataCount == INIT_COUNT {
        FitModel();
      } else if dataCount > INIT_COUNT {
        var good := WithinExpectedValueRange(time, value);
        if good {
          difCount := 0;
        } else {
          difCount := difCount + 1;
          if difCount >= MAX_DIFF_COUNT {
            AdaptModel();
          }
        }
      }
    }

    /** The point and its weighted average join the vectors. */
    method PushPoint(value: real, time: real)
      requires Valid()
      modifies this`data, this`times, this`weightedAverages, this`dataCount, this`windowSize
      ensures Valid() && dataCount == old(dataCount) + 1 && Points() == old(Points()) + [Point(time, value)]
      ensures weightedAverages == old(weightedAverages) + [NextAverage(old(weightedAverages), value)]
      ensures windowSize == old(windowSize) + 1
    {
      ghost var before := Points();
      data := data + [value];
      times := times + [time];
      if dataCount == 0 {
        weightedAverages := weightedAverages + [value];
      } else {
        weightedAverages := weightedAverages + [weightedAverages[dataCount - 1] * (1.0 - ALPHA) + value * ALPHA];
      }
      dataCount := dataCount + 1;
      windowSize := windowSize + 1;
      assert Points() == before + [Point(time, value)];
    }

    method FitModel()
      requires Valid() && dataCount > 0
      modifies this`modelParameters, this`state, this`needsToBeBroadcasted
      ensures Valid() && modelParameters == FitOf(Points()) && state == STABLE && needsToBeBroadcasted
    {
      PerformRegression(times, data);
      needsToBeBroadcasted := true;
    }

    method GetDataPoint(time: real) returns (x: Number)
      ensures x == Predict(modelParameters, state, time)
    {
      if state != STABLE {
        return Num(-1.0);
      }
      match modelParameters
      case NotANumber => x := Nan;
      case Fitted(mu, beta, _) => x := Num(mu * time + beta);
    }

    /** The third branch, a trend error, would need a nonzero last deviation; it is dead. */
    method WithinExpectedValueRange(time: real, value: real) returns (good: bool)
      requires Valid()
      modifies this`state, this`difCount
      ensures var bad := Bad(modelParameters, old(state), Point(time, value));
              var miss := Miss(modelParameters, old(state), Point(time, value));
              && good == !bad
              && state == (if miss then BAD else if bad then UNSTABLE else STABLE)
              && difCount == (if miss then MAX_DIFF_COUNT else old(difCount))
      ensures modelParameters.Fitted? ==>
                var expected := if old(state) == STABLE then modelParameters.mu * time + modelParameters.beta else -1.0;
                && good == IsNear(value, expected, modelParameters.sigma)
                && state == (if Apart(value, expected) > 30.0 then BAD else if good then STABLE else UNSTABLE)
    {
      var expected := GetDataPoint(time);
      var deviation := if expected.Nan? then Nan else Num(Abs(value - expected.value));
      var threshold := Threshold(modelParameters);
      if Exceeds(deviation, Num(MAX_THRESH_DIFF)) {
        state, difCount := BAD, MAX_DIFF_COUNT;
        return false;
      }
      if Exceeds(deviation, threshold) {
        state := UNSTABLE;
        return false;
      }
      var trend := modelParameters.Fitted? && Exceeds(deviation, Num(modelParameters.sigma))
        && ((deviation.value < 0.0 && lastDeviation < 0.0) || (deviation.value > 0.0 && lastDeviation > 0.0));
      state := if trend then UNSTABLE else STABLE;
      return !trend;
    }

    /** Refit on the window of the last MAX_DIFF_COUNT points. */
    method AdaptModel()
      requires Valid() && dataCount > INIT_COUNT
      modifies this`windowSize, this`modelParameters, this`state, this`needsToBeBroadcasted
      ensures Valid() && state == STABLE && modelParameters == FitOf(LastPoints(Points()))
      ensures windowSize == MAX_DIFF_COUNT && needsToBeBroadcasted
    {
      windowSize := MAX_DIFF_COUNT;
      var newTimes, newData := Window();
      PerformRegression(newTimes, newData);
      needsToBeBroadcasted := true;
    }

    /** The window's times and values; their averages, which no regression reads, stay local. */
    method Window() returns (newTimes: seq<real>, newData: seq<real>)
      requires Valid() && 0 < windowSize <= dataCount
      ensures |newTimes| == |newData| == windowSize
      ensures Zip(newTimes, newData) == Points()[dataCount - windowSize..]
    {
      newTimes, newData := [], [];
      var newAvgs: seq<real> := [];
      for i := dataCount - windowSize to dataCount
        invariant newData == data[dataCount - windowSize..i] && newTimes == times[dataCount - windowSize..i]
        invariant |newAvgs| == |newData|
      {
        if |newAvgs| > 0 {
          newAvgs := newAvgs + [data[i - 1] * (1.0 - ALPHA) + data[i] * ALPHA];
        } else {
          newAvgs := newAvgs + [data[i]];
        }
        newData := newData + [data[i]];
        newTimes := newTimes + [times[i]];
      }
    }

    method PerformRegression(times: seq<real>, values: seq<real>)
      requires |times| == |values| > 0
      modifies this`modelParameters, this`state
      ensures modelParameters == FitOf(Zip(times, values)) && state == STABLE
    {
      var s := Accumulate(times, values);
      state := STABLE;
      if Denominator(s) == 0.0 {
        modelParameters := NotANumber;
      } else {
        modelParameters := Fitted(Slope(s), Intercept(s), 0.0);
        CalculateDeviations(times, values);
      }
    }

    /** The loop of `performRegression`; the sum of squared values, never used, is left out. */
    method Accumulate(times: seq<real>, values: seq<real>) returns (s: Sums)
      requires |times| == |values|
      ensures s == SumsOf(Zip(times, values))
    {
      var x, y, xx, xy := 0.0, 0.0, 0.0, 0.0;
      ghost var ps := Zip(times, values);
      for i := 0 to |times|
        invariant SumsOf(ps[..i]) == Sums(i as real, x, y, xx, xy)
      {
        x := x + times[i];
        y := y + values[i];
        xx := xx + times[i] * times[i];
        xy := xy + times[i] * values[i];
        assert ps[..i + 1][..i] == ps[..i];
      }
      assert ps[..|times|] == ps;
      s := Sums(|times| as real, x, y, xx, xy);
    }

    method CalculateDeviations(times: seq<real>, values: seq<real>)
      requires |times| == |values| > 0 && modelParameters.Fitted? && state == STABLE
      modifies this`modelParameters
      ensures modelParameters == old(modelParameters).(sigma :=
                TotalDeviation(Zip(times, values), old(modelParameters).mu, old(modelParameters).beta)
                / (|times| as real))
    {
      var totalDeviation := 0.0;
      ghost var ps, fit := Zip(times, values), modelParameters;
      for i := 0 to |times|
        invariant modelParameters == fit
        invariant totalDeviation == TotalDeviation(ps[..i], fit.mu, fit.beta)
      {
        var expected := GetDataPoint(times[i]);
        totalDeviation := totalDeviation + Abs(values[i] - expected.value);
        assert ps[..i + 1][..i] == ps[..i];
      }
      assert ps[..|times|] == ps;
      modelParameters := modelParameters.(sigma := totalDeviation / (|times| as real));
    }
  }

  function Zip(ts: seq<real>, vs: seq<real>): (ps: seq<Point>)
    requires |ts| == |vs|
    ensures |ps| == |ts| && forall i :: 0 <= i < |ps| ==> ps[i] == Point(ts[i], vs[i])
  {
    seq(|ts|, i requires 0 <= i < |ts| => Point(ts[i], vs[i]))
  }

  // ----- Whole runs

  const Start := Model([], [], INIT, 0, NotANumber)

  function Run(ps: seq<Point>): Model {
    if ps == [] then Start else AddPoint(Run(ps[..|ps| - 1]), ps[|ps| - 1])
  }

  /** The verdicts on a run's points, in order. */
  function Verdicts(ps: seq<Point>): (vs: seq<Verdict>)
    ensures |vs| == |ps|
  {
    if ps == [] then [] else Verdicts(ps[..|ps| - 1]) + [VerdictOf(Run(ps[..|ps| - 1]), ps[|ps| - 1])]
  }

  predicate IsBad(v: Verdict) { v.Off? || v.Missed? }

  /** How many bad points, off or missed, a run ends with. */
  function BadTail(vs: seq<Verdict>): nat {
    if vs == [] || !IsBad(vs[|vs| - 1]) then 0 else BadTail(vs[..|vs| - 1]) + 1
  }

  lemma {:induction false} BadTailIsMaximal(vs: seq<Verdict>)
    ensures BadTail(vs) <= |vs|
    ensures forall i :: |vs| - BadTail(vs) <= i < |vs| ==> IsBad(vs[i])
    ensures BadTail(vs) < |vs| ==> !IsBad(vs[|vs| - BadTail(vs) - 1])
  {
    if vs != [] && IsBad(vs[|vs| - 1]) {
      var before := vs[..|vs| - 1];
      BadTailIsMaximal(before);
      forall i | |vs| - BadTail(vs) <= i < |vs|
        ensures IsBad(vs[i])
      {
        if i < |before| { assert vs[i] == before[i]; }
      }
    }
  }

  /** The bad points a run ends with contain a miss above 30. */
  ghost predicate TailHasMiss(vs: seq<Verdict>) {
    exists i :: |vs| - BadTail(vs) <= i < |vs| && 0 <= i && vs[i] == Missed
  }

  lemma TailMissStep(vs: seq<Verdict>)
    requires vs != [] && IsBad(vs[|vs| - 1])
    ensures TailHasMiss(vs) <==> vs[|vs| - 1] == Missed || TailHasMiss(vs[..|vs| - 1])
  {
    var before := vs[..|vs| - 1];
    BadTailIsMaximal(before);
    if TailHasMiss(before) {
      var i :| |before| - BadTail(before) <= i < |before| && 0 <= i && before[i] == Missed;
      assert vs[i] == Missed;
    }
  }

  /** The counter after some verdicts. */
  function CountOf(vs: seq<Verdict>): nat {
    if vs == [] then 0 else NextCount(CountOf(vs[..|vs| - 1]), vs[|vs| - 1])
  }

  /** Exactly the first three points come before initialisation. */
  predicate EarlyFirst(vs: seq<Verdict>) { forall i :: 0 <= i < |vs| ==> (vs[i] == Early <==> i < 3) }

  /** The counter, although no refit resets it, tells exactly whether the bad points a run
      ends with contain a miss, and otherwise how many they are. */
  lemma {:induction false} CounterMeaning(vs: seq<Verdict>)
    requires EarlyFirst(vs)
    ensures if TailHasMiss(vs) then CountOf(vs) > MAX_DIFF_COUNT else CountOf(vs) == BadTail(vs)
  {
    if vs != [] {
      var before := vs[..|vs| - 1];
      assert forall i :: 0 <= i < |before| ==> before[i] == vs[i];
      CounterMeaning(before);
      if IsBad(vs[|vs| - 1]) {
        TailMissStep(vs);
      } else if vs[|vs| - 1] == Early {
        BadTailIsMaximal(before);
        assert BadTail(before) == 0;
      }
    }
  }

  /** One point, seen through its verdict. */
  lemma AddPointByVerdict(m: Model, p: Point)
    ensures var n, v := AddPoint(m, p), VerdictOf(m, p);
            && n.points == m.points + [p] && n.difCount == NextCount(m.difCount, v)
            && (v == Early <==> |m.points| < INIT_COUNT)
            && (v == Early ==> n.state == if |n.points| == INIT_COUNT then STABLE else m.state)
            && (v != Early ==> n.state == if v == Good || n.difCount >= MAX_DIFF_COUNT then STABLE else UNSTABLE)
            && (v != Early ==>
                  n.fit == if v != Good && n.difCount >= MAX_DIFF_COUNT then FitOf(LastPoints(n.points)) else m.fit)
  {
  }

  lemma {:induction false} RunKeepsPoints(ps: seq<Point>)
    ensures Run(ps).points == ps
  {
    if ps != [] {
      RunKeepsPoints(ps[..|ps| - 1]);
      AddPointByVerdict(Run(ps[..|ps| - 1]), ps[|ps| - 1]);
      assert ps == ps[..|ps| - 1] + [ps[|ps| - 1]];
    }
  }

  lemma {:induction false} RunIsEarlyFirst(ps: seq<Point>)
    ensures EarlyFirst(Verdicts(ps))
  {
    if ps != [] {
      RunIsEarlyFirst(ps[..|ps| - 1]);
      RunKeepsPoints(ps[..|ps| - 1]);
      AddPointByVerdict(Run(ps[..|ps| - 1]), ps[|ps| - 1]);
    }
  }

  /** Along a run the verdicts alone decide the counter and the state. */
  lemma {:induction false} RunByVerdicts(ps: seq<Point>)
    ensures Run(ps).difCount == CountOf(Verdicts(ps))
    ensures if |ps| < INIT_COUNT then Run(ps).state == INIT else Run(ps).state in {STABLE, UNSTABLE}
  {
    if ps != [] {
      var before := ps[..|ps| - 1];
      RunByVerdicts(before);
      RunKeepsPoints(before);
      RunKeepsPoints(ps);
      AddPointByVerdict(Run(before), ps[|ps| - 1]);
      assert Verdicts(ps)[..|ps| - 1] == Verdicts(before);
    }
  }

  /** Past initialisation, a point triggers a refit exactly when it is bad and the bad
      points the run then ends with are at least four or contain a miss above 30; the
      refit uses exactly the last four points. Any other point leaves the fit alone, and
      no call ends in state BAD. */
  lemma RefitExactly(ps: seq<Point>)
    requires |ps| > 3
    ensures var m, before, vs := Run(ps), Run(ps[..|ps| - 1]), Verdicts(ps);
            var refit := BadTail(vs) >= 4 || TailHasMiss(vs);
            && m.fit == (if refit then FitOf(ps[|ps| - 4..]) else before.fit)
            && m.state == (if refit || vs[|vs| - 1] == Good then STABLE else UNSTABLE)
  {
    RunByVerdicts(ps);
    RunKeepsPoints(ps);
    RunKeepsPoints(ps[..|ps| - 1]);
    RunIsEarlyFirst(ps);
    AddPointByVerdict(Run(ps[..|ps| - 1]), ps[|ps| - 1]);
    CounterMeaning(Verdicts(ps));
    BadTailIsMaximal(Verdicts(ps));
  }

  /** Past initialisation, what a stable model expects is on its line, and what an unstable
      one expects is -1. A point more than 30 from that is missed; one that is not, but is
      more than 6 and more than four deviations from it, is off. An undefined fit expects
      nothing of a stable model, and knows no deviation. */
  lemma VerdictInNumbers(m: Model, p: Point)
    requires |m.points| >= 3
    ensures m.fit.Fitted? ==>
              var expected := if m.state == STABLE then m.fit.mu * p.t + m.fit.beta else -1.0;
              var apart := Apart(p.v, expected);
              && (VerdictOf(m, p) == Missed <==> apart > 30.0)
              && (VerdictOf(m, p) == Off <==> apart <= 30.0 && apart > 6.0 && apart > 4.0 * m.fit.sigma)
              && (VerdictOf(m, p) == Good <==> IsNear(p.v, expected, m.fit.sigma))
    ensures m.fit == NotANumber ==>
              VerdictOf(m, p) == if m.state != STABLE && Apart(p.v, -1.0) > 30.0 then Missed else Good
  {
  }

  /** The deviation is the mean distance of the points from the line. A model is only ever
      fitted to three points or to four. */
  lemma SigmaIsMeanDistance(ps: seq<Point>)
    requires |ps| == 3 || |ps| == 4
    requires FitOf(ps).Fitted?
    ensures var f := FitOf(ps);
            f.sigma * |ps| as real ==
              Distance(ps[0], f) + Distance(ps[1], f) + Distance(ps[2], f)
              + if |ps| == 4 then Distance(ps[3], f) else 0.0
  {
    var f := FitOf(ps);
    DeviationStep(ps[..1], f);
    DeviationStep(ps[..2], f);
    DeviationStep(ps[..3], f);
    if |ps| == 4 { DeviationStep(ps, f); }
    assert ps[..|ps|] == ps && ps[..2][..1] == ps[..1] && ps[..3][..2] == ps[..2] && ps[..1][..0] == [];
  }

  /** How far a point is from the line of a fit. */
  function Distance(p: Point, f: Fit): real
    requires f.Fitted?
  {
    Apart(p.v, Line(f.mu, f.beta, p.t))
  }

  lemma DeviationStep(ps: seq<Point>, f: Fit)
    requires ps != [] && f.Fitted?
    ensures TotalDeviation(ps, f.mu, f.beta)
         == TotalDeviation(ps[..|ps| - 1], f.mu, f.beta) + Distance(ps[|ps| - 1], f)
  {
    var p := ps[|ps| - 1];
    ApartIsAbs(p.v, Line(f.mu, f.beta, p.t));
    assert Error(p, f.mu, f.beta) == p.v - Line(f.mu, f.beta, p.t);
  }

  lemma ApartIsAbs(x: real, y: real)
    ensures Apart(x, y) == Abs(x - y)
  {
  }

  /** The first three points lie on the line, not all at one time, and the others within 6 of it. */
  ghost predicate Follows(ps: seq<Point>, m: real, b: real) {
    && |ps| >= 3 && TwoTimes(ps[..3])
    && (forall i :: 0 <= i < 3 ==> ps[i].v == Line(m, b, ps[i].t))
    && forall i :: 3 <= i < |ps| ==> Apart(ps[i].v, Line(m, b, ps[i].t)) <= 6.0
  }

  /** What one point does to a model fitted without deviation. */
  lemma OnePoint(model: Model, p: Point, m: real, b: real)
    requires |model.points| >= 3 && model.fit == Fitted(m, b, 0.0) && model.state == STABLE && model.difCount == 0
    ensures var next, apart := AddPoint(model, p), Apart(p.v, Line(m, b, p.t));
            && (apart <= 6.0 ==> next.fit == model.fit && next.state == STABLE && next.difCount == 0)
            && (6.0 < apart <= 30.0 ==> next.fit == model.fit && next.state == UNSTABLE)
            && (apart > 30.0 ==> next.fit == FitOf((model.points + [p])[|model.points| - 3..]) && next.state == STABLE)
  {
    VerdictInNumbers(model, p);
    AddPointByVerdict(model, p);
  }

  lemma ThirdPoint(ps: seq<Point>)
    requires |ps| == 3
    ensures Run(ps).fit == FitOf(ps) && Run(ps).state == STABLE && Run(ps).difCount == 0
  {
    var before := ps[..|ps| - 1];
    NoCountEarly(before);
    RunKeepsPoints(before);
    assert ps == before + [ps[|ps| - 1]];
  }

  lemma {:induction false} NoCountEarly(ps: seq<Point>)
    requires |ps| < 3
    ensures Run(ps).difCount == 0
  {
    if ps != [] {
      NoCountEarly(ps[..|ps| - 1]);
      RunKeepsPoints(ps[..|ps| - 1]);
    }
  }

  lemma FirstFit(ps: seq<Point>, m: real, b: real)
    requires Follows(ps, m, b) && |ps| == 3
    ensures Run(ps).fit == Fitted(m, b, 0.0) && Run(ps).state == STABLE && Run(ps).difCount == 0
  {
    ThirdPoint(ps);
    assert ps[..3] == ps;
    OnLineIsRecovered(ps, m, b);
  }

  /** A model fitted to a line keeps it, and stays stable, as long as points come within 6. */
  lemma {:induction false} LineIsKept(ps: seq<Point>, m: real, b: real)
    requires Follows(ps, m, b)
    ensures Run(ps).fit == Fitted(m, b, 0.0) && Run(ps).state == STABLE && Run(ps).difCount == 0
  {
    if |ps| == 3 {
      FirstFit(ps, m, b);
    } else {
      var before := ps[..|ps| - 1];
      assert before[..3] == ps[..3];
      LineIsKept(before, m, b);
      RunKeepsPoints(before);
      OnePoint(Run(before), ps[|ps| - 1], m, b);
    }
  }

  /** The first point farther than that makes it unstable, or, if it is farther than 30,
      makes it fit itself again to the last four points. */
  lemma LineIsLeft(ps: seq<Point>, m: real, b: real, p: Point)
    requires Follows(ps, m, b)
    ensures var next, apart := Run(ps + [p]), Apart(p.v, Line(m, b, p.t));
            && (6.0 < apart <= 30.0 ==> next.fit == Fitted(m, b, 0.0) && next.state == UNSTABLE)
            && (apart > 30.0 ==> next.fit == FitOf((ps + [p])[|ps| - 3..]) && next.state == STABLE)
  {
    LineIsKept(ps, m, b);
    RunKeepsPoints(ps);
    assert (ps + [p])[..|ps|] == ps;
    OnePoint(Run(ps), p, m, b);
  }

  /** Each average keeps a tenth of the one before. */
  ghost predicate Averaged(avgs: seq<real>, ps: seq<Point>) {
    && |avgs| == |ps| && (ps != [] ==> avgs[0] == ps[0].v)
    && forall i, j :: 0 <= i && j == i + 1 < |ps| ==> avgs[j] == 0.1 * avgs[i] + 0.9 * ps[j].v
  }

  lemma {:induction false} AveragesAlong(ps: seq<Point>)
    ensures Averaged(Run(ps).averages, ps)
  {
    if ps != [] {
      var before, p := ps[..|ps| - 1], ps[|ps| - 1];
      AveragesAlong(before);
      assert Run(ps).averages == Run(before).averages + [NextAverage(Run(before).averages, p.v)];
    }
  }

  /** An unstable model predicts -1, so whatever it was fitted to, any next measurement
      above 29 counts as a miss and makes it fit itself again. */
  lemma UnstableModelRefits(m: Model, p: Point)
    requires |m.points| >= 3 && m.state == UNSTABLE && p.v > 29.0
    ensures VerdictOf(m, p) == Missed && AddPoint(m, p).fit == FitOf((m.points + [p])[|m.points| - 3..])
  {
  }

  /** Once a fit has divided zero by zero, the model accepts every later point and never
      fits itself again. */
  lemma {:induction false} NotANumberIsForever(m: Model, ps: seq<Point>)
    requires |m.points| >= 3 && m.fit == NotANumber && m.state == STABLE
    ensures AddAll(m, ps).fit == NotANumber && AddAll(m, ps).state == STABLE
    decreases |ps|
  {
    if ps != [] { NotANumberIsForever(AddPoint(m, ps[0]), ps[1..]); }
  }

  function AddAll(m: Model, ps: seq<Point>): Model
    decreases |ps|
  {
    if ps == [] then m else AddAll(AddPoint(m, ps[0]), ps[1..])
  }

  /** A fit is undefined exactly when its points share one time; otherwise it is the one
      least-squares line through them. */
  lemma FitIsLeastSquares(ps: seq<Point>, m: real, b: real)
    requires ps != []
    ensures FitOf(ps) == NotANumber <==> !TwoTimes(ps)
    ensures FitOf(ps).Fitted? ==> Residuals(ps, FitOf(ps).mu, FitOf(ps).beta) <= Residuals(ps, m, b)
  {
    DenominatorIsPositive(ps);
    if TwoTimes(ps) { ClosedFormIsLeast(ps, m, b); }
  }
}
