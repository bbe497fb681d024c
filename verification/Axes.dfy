/** Nice tick steps, linear and logarithmic value axes, and the clipped percentile marks drawn on them. */
module Axes {
  import opened Common

  // ------------------------------------------------------------- powers of ten

  function Pow10(e: int): (p: real)
    ensures p > 0.0
    decreases if e < 0 then -e else e
  {
    if e == 0 then 1.0 else if e > 0 then 10.0 * Pow10(e - 1) else Pow10(e + 1) / 10.0
  }

  lemma Pow10Next(e: int)
    ensures Pow10(e + 1) == 10.0 * Pow10(e)
  {
  }

  lemma {:induction false} Pow10Grows(a: int, b: int)
    requires a < b
    ensures 10.0 * Pow10(a) <= Pow10(b)
    decreases b - a
  {
    Pow10Next(b - 1);
    if a == b - 1 {
    } else {
      Pow10Grows(a, b - 1);
    }
  }

  /** math.log10 on positive numbers: strictly increasing, and exact on powers of ten. */
  ghost predicate IsLog10(log10: real -> real) {
    && (forall x, y :: 0.0 < x < y ==> log10(x) < log10(y))
    && (forall e {:trigger log10(Pow10(e))} :: log10(Pow10(e)) == e as real)
  }

  function Ceil(x: real): (n: int)
    ensures n as real - 1.0 < x <= n as real
  {
    -((-x).Floor)
  }

  lemma DecadeOf(v: real, log10: real -> real)
    requires v > 0.0 && IsLog10(log10)
    ensures var e := log10(v).Floor; Pow10(e) <= v < Pow10(e + 1)
    ensures v <= Pow10(Ceil(log10(v)))
  {
    var e := log10(v).Floor;
    assert log10(Pow10(e)) == e as real && log10(Pow10(e + 1)) == (e + 1) as real;
    assert log10(Pow10(Ceil(log10(v)))) == Ceil(log10(v)) as real;
  }

  // ------------------------------------------------------------- nice steps

  /** The smallest of 1, 2, 5 and 10 that is not below a fraction in [1, 10). */
  function Nice(fraction: real): real {
    if fraction <= 1.0 then 1.0 else if fraction <= 2.0 then 2.0 else if fraction <= 5.0 then 5.0 else 10.0
  }

  function NiceStep(value: real, log10: real -> real): (step: real)
    ensures step > 0.0
  {
    if value <= 0.0 then 1.0 else NiceMultiple(value, Pow10(log10(value).Floor))
  }

  function NiceMultiple(value: real, magnitude: real): (step: real)
    requires magnitude > 0.0
    ensures step > 0.0
  {
    Nice(value / magnitude) * magnitude
  }

  /** A nice step is never below its value and always below two and a half times it. */
  lemma NiceStepBounds(v: real, log10: real -> real)
    requires v > 0.0 && IsLog10(log10)
    ensures v <= NiceStep(v, log10) < 2.5 * v
  {
    DecadeOf(v, log10);
    Pow10Next(log10(v).Floor);
    NiceMultipleBounds(v, Pow10(log10(v).Floor));
  }

  lemma NiceMultipleBounds(v: real, m: real)
    requires m > 0.0 && m <= v < 10.0 * m
    ensures v <= NiceMultiple(v, m) < 2.5 * v
  {
    var f := v / m;
    assert v == f * m;
    if f <= 1.0 {
      AtMost(v, f, 1.0, m);
    } else if f <= 2.0 {
      AtMost(v, f, 2.0, m);
    } else if f <= 5.0 {
      AtMost(v, f, 5.0, m);
      Above(v, f, 2.0, m);
    } else {
      Above(v, f, 5.0, m);
    }
  }

  /** One, two or five times a power of ten. */
  predicate IsNice(step: real, m: int, e: int) {
    m in {1, 2, 5} && step == m as real * Pow10(e)
  }

  /** The smallest such number that is not below `unit`. */
  ghost predicate LeastNice(step: real, unit: real) {
    && unit <= step
    && (exists m, e :: IsNice(step, m, e))
    && (forall other, m, e {:trigger IsNice(other, m, e)} :: IsNice(other, m, e) && unit <= other ==> step <= other)
  }

  lemma NiceStepIsLeast(v: real, log10: real -> real)
    requires v > 0.0 && IsLog10(log10)
    ensures LeastNice(NiceStep(v, log10), v)
  {
    DecadeOf(v, log10);
    NiceStepBounds(v, log10);
    NiceStepIsNice(v, log10);
    forall other, m, e | IsNice(other, m, e) && v <= other
      ensures NiceStep(v, log10) <= other
    {
      LeastAmong(v, log10(v).Floor, other, m, e);
    }
  }

  lemma LeastAmong(v: real, d: int, other: real, m: int, e: int)
    requires Pow10(d) <= v < Pow10(d + 1) && IsNice(other, m, e) && v <= other
    ensures NiceMultiple(v, Pow10(d)) <= other
  {
    if e < d {
      BelowDecade(v, d, other, m, e);
      assert false;
    }
    if e == d {
      SmallestInDecade(v, Pow10(d), other, m);
    } else {
      AboveDecade(v, d, other, m, e);
    }
  }

  lemma NiceStepIsNice(v: real, log10: real -> real)
    requires v > 0.0 && IsLog10(log10)
    ensures exists m, e :: IsNice(NiceStep(v, log10), m, e)
  {
    var d := log10(v).Floor;
    var f := v / Pow10(d);
    if f <= 1.0 {
      assert IsNice(NiceStep(v, log10), 1, d);
    } else if f <= 2.0 {
      assert IsNice(NiceStep(v, log10), 2, d);
    } else if f <= 5.0 {
      assert IsNice(NiceStep(v, log10), 5, d);
    } else {
      Pow10Next(d);
      assert IsNice(NiceStep(v, log10), 1, d + 1);
    }
  }

  lemma SmallestInDecade(v: real, magnitude: real, other: real, m: int)
    requires magnitude > 0.0 && m in {1, 2, 5} && v <= other == m as real * magnitude
    ensures NiceMultiple(v, magnitude) <= other
  {
    var f := v / magnitude;
    assert v == f * magnitude;
    if f > m as real {
      Above(v, f, m as real, magnitude);
      assert false;
    }
    AtMost(Nice(f) * magnitude, Nice(f), m as real, magnitude);
  }

  lemma AboveDecade(v: real, d: int, other: real, m: int, e: int)
    requires Pow10(d) <= v < Pow10(d + 1) && IsNice(other, m, e) && e > d
    ensures NiceMultiple(v, Pow10(d)) <= other
  {
    Pow10Next(d);
    if e > d + 1 {
      Pow10Grows(d + 1, e);
    }
    var n := Nice(v / Pow10(d));
    AtMost(n * Pow10(d), n, 10.0, Pow10(d));
    AtMost(Pow10(e), 1.0, m as real, Pow10(e));
  }

  lemma BelowDecade(v: real, d: int, other: real, m: int, e: int)
    requires Pow10(d) <= v && IsNice(other, m, e) && e < d
    ensures other < v
  {
    Pow10Grows(e, d);
    AtMost(other, m as real, 5.0, Pow10(e));
  }

  lemma Products(a: real, b: real)
    requires b > 0.0
    ensures a > 0.0 ==> a * b > 0.0
    ensures a >= 0.0 ==> a * b >= 0.0
  {
  }

  lemma Distributes(a: real, b: real, m: real)
    ensures (a + b) * m == a * m + b * m
  {
  }

  lemma AtMost(v: real, f: real, c: real, m: real)
    requires m > 0.0 && v == f * m && f <= c
    ensures v <= c * m
  {
    var d := c - f;
    Products(d, m);
    Distributes(f, d, m);
  }

  lemma Above(v: real, f: real, c: real, m: real)
    requires m > 0.0 && v == f * m && f > c
    ensures v > c * m
  {
    var d := f - c;
    Products(d, m);
    Distributes(c, d, m);
  }

  /** A linear axis: `count` steps of `step` from zero to `upper`. */
  datatype Scale = Scale(count: int, step: real) {
    function Upper(): real {
      count as real * step
    }
  }

  function ScaleOf(maximum: real, tickCount: nat, log10: real -> real): Scale
    requires tickCount > 0
  {
    if maximum <= 0.0 then Scale(5, 0.2) else
    StepsOf(maximum, NiceStep(maximum / tickCount as real, log10))
  }

  function StepsOf(maximum: real, step: real): Scale
    requires step > 0.0
  {
    Scale(Ceil(maximum / step), step)
  }

  /** The maximum is reached with less than a step to spare, in more than 2/5 of and at most `tickCount` steps. */
  ghost predicate Reaches(s: Scale, maximum: real, tickCount: nat) {
    && s.step > 0.0 && s.count > 0
    && maximum <= s.Upper() < maximum + s.step && 2 * tickCount < 5 * s.count && s.count <= tickCount
  }

  /** The least nice step that does so; without a positive maximum, five steps to one. */
  ghost predicate Covers(s: Scale, maximum: real, tickCount: nat)
    requires tickCount > 0
  {
    if maximum > 0.0 then Reaches(s, maximum, tickCount) && LeastNice(s.step, maximum / tickCount as real)
    else s.step == 0.2 && s.Upper() == 1.0
  }

  /** Between three and six steps for the default of six. */
  lemma ScaleCovers(maximum: real, tickCount: nat, log10: real -> real)
    requires tickCount > 0 && IsLog10(log10)
    ensures Covers(ScaleOf(maximum, tickCount, log10), maximum, tickCount)
  {
    if maximum > 0.0 {
      UnitCovers(maximum, tickCount, maximum / tickCount as real, log10);
    }
  }

  lemma UnitCovers(maximum: real, tickCount: nat, unit: real, log10: real -> real)
    requires tickCount > 0 && maximum > 0.0 && unit == maximum / tickCount as real && IsLog10(log10)
    ensures Covers(StepsOf(maximum, NiceStep(unit, log10)), maximum, tickCount)
  {
    assert unit > 0.0;
    NiceStepBounds(unit, log10);
    NiceStepIsLeast(unit, log10);
    StepCovers(maximum, tickCount, unit, NiceStep(unit, log10));
  }

  lemma StepCovers(maximum: real, tickCount: nat, unit: real, step: real)
    requires tickCount > 0 && maximum > 0.0 && unit == maximum / tickCount as real
    requires 0.0 < unit <= step < 2.5 * unit && LeastNice(step, unit)
    ensures Covers(StepsOf(maximum, step), maximum, tickCount)
  {
    StepBounds(maximum, unit, step, tickCount as real);
    ScaledIntervals(maximum, tickCount, step);
  }

  lemma ScaledIntervals(maximum: real, tickCount: nat, step: real)
    requires tickCount > 0 && maximum > 0.0 && step > 0.0 && maximum <= step * tickCount as real < 2.5 * maximum
    ensures Reaches(StepsOf(maximum, step), maximum, tickCount)
  {
    StepsToReach(maximum, tickCount as real, step);
  }

  lemma StepBounds(maximum: real, unit: real, step: real, t: real)
    requires t > 0.0 && unit == maximum / t && unit <= step < 2.5 * unit
    ensures maximum <= step * t < 2.5 * maximum
  {
    assert maximum == unit * t;
    AtMost(maximum, unit, step, t);
    Above((2.5 * unit) * t, 2.5 * unit, step, t);
  }

  lemma StepsToReach(maximum: real, t: real, step: real)
    requires step > 0.0 && maximum <= step * t < 2.5 * maximum
    ensures var k := Ceil(maximum / step) as real;
      maximum <= k * step < maximum + step && t < 2.5 * k && k < t + 1.0
  {
    var q := maximum / step;
    var k := Ceil(q) as real;
    AtMost(maximum, q, k, step);
    Above(maximum, q, k - 1.0, step);
    assert (k - 1.0) * step == k * step - step;
    QuotientWithin(maximum, q, t, step);
  }

  lemma QuotientWithin(maximum: real, q: real, t: real, step: real)
    requires step > 0.0 && maximum == q * step && maximum <= step * t < 2.5 * maximum
    ensures q <= t < 2.5 * q
  {
    if q > t {
      Above(maximum, q, t, step);
      assert false;
    }
    if 2.5 * q <= t {
      AtMost(2.5 * maximum, 2.5 * q, t, step);
      assert false;
    }
  }

  // ------------------------------------------------------------- value axes

  datatype Axis =
    | Linear(scale: Scale, ticks: seq<real>)
    | OnlyZero(ticks: seq<real>)
    | Logarithmic(lower: int, upper: int, hasZero: bool, ticks: seq<real>)

  function ZeroGap(hasZero: bool): real {
    if hasZero then 0.08 else 0.0
  }

  /** The axis' `position` closure; a failing call raises ValueError. */
  function Position(axis: Axis, value: real, log10: real -> real): Result<real> {
    match axis
    case Linear(scale, _) =>
      if scale.Upper() == 0.0 then Rejected("float division by zero") else Ok(Fraction(value, 0.0, scale.Upper()))
    case OnlyZero(_) => Ok(0.0)
    case Logarithmic(lower, upper, hasZero, _) =>
      if value == 0.0 then
        if hasZero then Ok(0.0) else Rejected("Unexpected zero on positive logarithmic axis")
      else if value < 0.0 || upper == lower then Rejected("math domain error")
      else
        var gap := ZeroGap(hasZero);
        Ok(gap + (1.0 - gap) * Fraction(log10(value), lower as real, upper as real))
  }

  function Fraction(x: real, lower: real, upper: real): real
    requires lower != upper
  {
    (x - lower) / (upper - lower)
  }

  function Max(values: seq<real>): (m: real)
    requires values != []
    ensures m in values && forall v :: v in values ==> v <= m
  {
    assert values == [values[0]] + values[1..];
    if |values| == 1 || values[0] >= Max(values[1..]) then values[0] else Max(values[1..])
  }

  function Min(values: seq<real>): (m: real)
    requires values != []
    ensures m in values && forall v :: v in values ==> m <= v
  {
    assert values == [values[0]] + values[1..];
    if |values| == 1 || values[0] <= Min(values[1..]) then values[0] else Min(values[1..])
  }

  /** The values an axis can place: those it was made from, and its own ticks. */
  ghost predicate Placeable(axis: Axis, v: real) {
    match axis
    case Linear(scale, _) => 0.0 <= v <= scale.Upper()
    case OnlyZero(_) => v == 0.0
    case Logarithmic(lower, upper, hasZero, _) => (hasZero && v == 0.0) || Pow10(lower) <= v <= Pow10(upper)
  }

  ghost predicate Sound(axis: Axis) {
    match axis
    case Linear(scale, ticks) =>
      && scale.Upper() > 0.0
      && |ticks| == scale.count + 1
      && forall i :: 0 <= i < |ticks| ==> ticks[i] == i as real * scale.step
    case OnlyZero(ticks) => ticks == [0.0]
    case Logarithmic(lower, upper, hasZero, ticks) =>
      && lower < upper
      && var zeros := if hasZero then 1 else 0;
         && |ticks| == zeros + upper - lower + 1
         && (hasZero ==> ticks[0] == 0.0)
         && forall i :: zeros <= i < |ticks| ==> ticks[i] == Pow10(lower + i - zeros)
  }

  lemma FractionBounds(x: real, y: real, lower: real, upper: real)
    requires lower < upper && lower <= x < y <= upper
    ensures 0.0 <= Fraction(x, lower, upper) < Fraction(y, lower, upper) <= 1.0
    ensures Fraction(lower, lower, upper) == 0.0 && Fraction(upper, lower, upper) == 1.0
  {
    var span := upper - lower;
    var f, g := Fraction(x, lower, upper), Fraction(y, lower, upper);
    assert f * span == x - lower && g * span == y - lower;
    if f >= g {
      AtMost(y - lower, g, f, span);
      assert false;
    }
    if f < 0.0 {
      Above(0.0, 0.0, f, span);
      assert false;
    }
    if g > 1.0 {
      Above(y - lower, g, 1.0, span);
      assert false;
    }
  }

  lemma LogFraction(axis: Axis, v: real, log10: real -> real)
    requires axis.Logarithmic? && Sound(axis) && IsLog10(log10) && Pow10(axis.lower) <= v <= Pow10(axis.upper)
    ensures axis.lower as real <= log10(v) <= axis.upper as real
  {
    assert log10(Pow10(axis.lower)) == axis.lower as real && log10(Pow10(axis.upper)) == axis.upper as real;
  }

  lemma Blend(gap: real, f: real, g: real)
    requires 0.0 <= gap < 1.0 && 0.0 <= f < g <= 1.0
    ensures gap <= gap + (1.0 - gap) * f < gap + (1.0 - gap) * g <= 1.0
  {
    Above((1.0 - gap) * g, g, f, 1.0 - gap);
    AtMost((1.0 - gap) * g, g, 1.0, 1.0 - gap);
  }

  /** Positions keep the order of values strictly and stay inside [0, 1]; no placeable value is refused. */
  lemma PositionsOrdered(axis: Axis, v: real, w: real, log10: real -> real)
    requires Sound(axis) && IsLog10(log10)
    requires Placeable(axis, v) && Placeable(axis, w) && v < w
    ensures Position(axis, v, log10).Ok? && Position(axis, w, log10).Ok?
    ensures 0.0 <= Position(axis, v, log10).value < Position(axis, w, log10).value <= 1.0
  {
    match axis
    case Linear(scale, _) => FractionBounds(v, w, 0.0, scale.Upper());
    case OnlyZero(_) =>
    case Logarithmic(lower, upper, hasZero, _) =>
      LogFraction(axis, w, log10);
      if v == 0.0 {
        FractionWithin(log10(w), lower as real, upper as real);
        assert (1.0 - 0.08) * Fraction(log10(w), lower as real, upper as real) >= 0.0;
      } else {
        LogFraction(axis, v, log10);
        FractionBounds(log10(v), log10(w), lower as real, upper as real);
        Blend(ZeroGap(hasZero), Fraction(log10(v), lower as real, upper as real),
              Fraction(log10(w), lower as real, upper as real));
      }
  }

  lemma FractionWithin(x: real, lower: real, upper: real)
    requires lower < upper && lower <= x <= upper
    ensures 0.0 <= Fraction(x, lower, upper) <= 1.0
  {
    if x < upper {
      FractionBounds(x, upper, lower, upper);
    } else {
      FractionBounds(lower, x, lower, upper);
    }
  }

  lemma PositionWithin(axis: Axis, v: real, log10: real -> real)
    requires Sound(axis) && IsLog10(log10) && Placeable(axis, v)
    ensures Position(axis, v, log10).Ok? && 0.0 <= Position(axis, v, log10).value <= 1.0
  {
    match axis
    case Linear(scale, _) =>
      PositionsOrdered(axis, 0.0, scale.Upper(), log10);
      if v < scale.Upper() {
        PositionsOrdered(axis, v, scale.Upper(), log10);
      }
    case OnlyZero(_) =>
    case Logarithmic(lower, upper, _, _) =>
      Pow10Grows(lower, upper);
      if v < Pow10(upper) {
        PositionsOrdered(axis, v, Pow10(upper), log10);
      } else {
        PositionsOrdered(axis, Pow10(lower), v, log10);
      }
  }

  /** Where a value is on its axis, without a division: as far along as its share of the axis, or of the decades. */
  ghost predicate IsPosition(axis: Axis, v: real, p: real, log10: real -> real) {
    match axis
    case Linear(scale, _) => p * scale.Upper() == v
    case OnlyZero(_) => p == 0.0
    case Logarithmic(lower, upper, hasZero, _) =>
      var gap := if hasZero then 0.08 else 0.0;
      if v == 0.0 then p == 0.0
      else (p - gap) * (upper - lower) as real == (1.0 - gap) * (log10(v) - lower as real)
  }

  lemma PositionIs(axis: Axis, v: real, log10: real -> real)
    requires Sound(axis) && IsLog10(log10) && Placeable(axis, v)
    ensures Position(axis, v, log10).Ok? && IsPosition(axis, v, Position(axis, v, log10).value, log10)
  {
    PositionWithin(axis, v, log10);
    match axis
    case Linear(scale, _) => FractionTimes(v, 0.0, scale.Upper());
    case OnlyZero(_) =>
    case Logarithmic(lower, upper, hasZero, _) =>
      if v != 0.0 {
        var gap, span := ZeroGap(hasZero), upper as real - lower as real;
        var f := Fraction(log10(v), lower as real, upper as real);
        FractionTimes(log10(v), lower as real, upper as real);
        Regroup(1.0 - gap, f, span);
      }
  }

  lemma FractionTimes(x: real, lower: real, upper: real)
    requires lower != upper
    ensures Fraction(x, lower, upper) * (upper - lower) == x - lower
  {
  }

  lemma Regroup(a: real, b: real, c: real)
    ensures (a * b) * c == a * (b * c)
  {
  }

  function Positives(values: seq<real>): (ps: seq<real>)
    ensures forall v :: v in ps <==> v in values && v > 0.0
  {
    if values == [] then [] else
    assert values == [values[0]] + values[1..];
    (if values[0] > 0.0 then [values[0]] else []) + Positives(values[1..])
  }

  /** `while value <= upper + step / 10`, for value = i * step, runs exactly for i <= count. */
  lemma TickGuard(i: int, count: int, step: real, value: real)
    requires step > 0.0 && value == i as real * step
    ensures value <= count as real * step + step / 10.0 <==> i <= count
  {
    if i <= count {
      AtMost(value, i as real, count as real, step);
    } else {
      AtMost((count + 1) as real * step, (count + 1) as real, i as real, step);
      Successor(count, step);
    }
  }

  lemma Successor(i: int, step: real)
    ensures (i + 1) as real * step == i as real * step + step
  {
    assert (i + 1) as real == i as real + 1.0;
  }

  method LinearTicks(scale: Scale) returns (ticks: seq<real>)
    requires scale.step > 0.0 && scale.count > 0
    ensures Sound(Linear(scale, ticks))
  {
    ticks := [];
    var upper, value := scale.count as real * scale.step, 0.0;
    TickGuard(0, scale.count, scale.step, value);
    while value <= upper + scale.step / 10.0
      invariant value == |ticks| as real * scale.step && |ticks| <= scale.count + 1
      invariant value <= upper + scale.step / 10.0 <==> |ticks| <= scale.count
      invariant forall i :: 0 <= i < |ticks| ==> ticks[i] == i as real * scale.step
      decreases scale.count + 1 - |ticks|
    {
      ticks := ticks + [value];
      Successor(|ticks| - 1, scale.step);
      value := value + scale.step;
      TickGuard(|ticks|, scale.count, scale.step, value);
    }
    Above(upper, scale.count as real, 0.0, scale.step);
  }

  /** The axis spans whole decades, starting in the smallest positive value's own decade (or one below). */
  ghost predicate TightDecades(values: seq<real>, pad: int, lower: int, upper: int) {
    && (exists v :: v in values && 0.0 < v && Pow10(lower + pad) <= v < Pow10(lower + pad + 1))
    && (upper == lower + 1 || exists v :: v in values && Pow10(upper - 1) < v)
  }

  method ValueAxis(values: seq<real>, logarithmic: bool, tickCount: nat, padLowerDecade: bool, log10: real -> real)
    returns (r: Result<Axis>)
    requires tickCount > 0 && IsLog10(log10)
    ensures r.Ok? <==> values != [] && forall v :: v in values ==> v >= 0.0
    ensures r.Ok? ==> Sound(r.value) && forall v :: v in values ==> Placeable(r.value, v)
    ensures r.Ok? && !logarithmic ==> r.value.Linear? && Covers(r.value.scale, Max(values), tickCount)
    ensures r.Ok? && logarithmic ==>
      if forall v :: v in values ==> v == 0.0 then r.value.OnlyZero?
      else r.value.Logarithmic? && (r.value.hasZero <==> 0.0 in values) &&
           TightDecades(values, if padLowerDecade then 1 else 0, r.value.lower, r.value.upper)
  {
    if values == [] {
      return Rejected("Cannot scale an empty value set");
    }
    if exists v :: v in values && v < 0.0 {
      return Rejected("axes do not support negative values");
    }
    if !logarithmic {
      var scale := ScaleOf(Max(values), tickCount, log10);
      ScaleCovers(Max(values), tickCount, log10);
      var ticks := LinearTicks(scale);
      return Ok(Linear(scale, ticks));
    }
    var positives := Positives(values);
    assert forall v :: v in values && v != 0.0 ==> v in positives;
    if positives == [] {
      return Ok(OnlyZero([0.0]));
    }
    assert exists v :: v in values && v != 0.0 by {
      assert positives[0] in positives;
    }
    var axis := LogarithmicAxis(values, positives, padLowerDecade, log10);
    return Ok(axis);
  }

  function Decades(smallest: real, largest: real, pad: int, log10: real -> real): (int, int) {
    var lower := log10(smallest).Floor - pad;
    var upper := Ceil(log10(largest));
    (lower, if upper <= lower then lower + 1 else upper)
  }

  lemma DecadesCover(smallest: real, largest: real, pad: int, log10: real -> real)
    requires 0.0 < smallest <= largest && 0 <= pad <= 1 && IsLog10(log10)
    ensures var (lower, upper) := Decades(smallest, largest, pad, log10);
      && lower < upper && Pow10(lower) <= smallest && largest <= Pow10(upper)
      && Pow10(lower + pad) <= smallest < Pow10(lower + pad + 1)
      && (upper == lower + 1 || Pow10(upper - 1) < largest)
  {
    var (lower, upper) := Decades(smallest, largest, pad, log10);
    DecadeOf(smallest, log10);
    DecadeOf(largest, log10);
    if 0 < pad {
      Pow10Grows(lower, lower + pad);
    }
    if Ceil(log10(largest)) < upper {
      Pow10Grows(Ceil(log10(largest)), upper);
    } else {
      assert log10(Pow10(upper - 1)) == (upper - 1) as real < log10(largest);
    }
  }

  method LogarithmicAxis(values: seq<real>, positives: seq<real>, padLowerDecade: bool, log10: real -> real)
    returns (axis: Axis)
    requires IsLog10(log10) && positives != []
    requires forall v :: v in positives <==> v in values && v > 0.0
    requires forall v :: v in values && v != 0.0 ==> v in positives
    ensures axis.Logarithmic? && Sound(axis) && (axis.hasZero <==> 0.0 in values)
    ensures forall v :: v in values ==> Placeable(axis, v)
    ensures TightDecades(values, if padLowerDecade then 1 else 0, axis.lower, axis.upper)
  {
    var pad := if padLowerDecade then 1 else 0;
    var (lower, upper) := Decades(Min(positives), Max(positives), pad, log10);
    DecadesCover(Min(positives), Max(positives), pad, log10);
    var decades := seq(upper - lower + 1, i requires 0 <= i => Pow10(lower + i));
    axis := Logarithmic(lower, upper, 0.0 in values, (if 0.0 in values then [0.0] else []) + decades);
  }

  // ------------------------------------------------------------- percentile marks

  const PERCENTILE_MAX_MS := 1000.0
  const PLOT_LEFT := 310.0
  const PLOT_WIDTH := 1170.0

  datatype Percentiles = Percentiles(p50: real, p90: real, p99: real) {
    predicate Ordered() {
      p50 <= p90 <= p99
    }
  }

  function Clip(v: real): real {
    if v <= PERCENTILE_MAX_MS then v else PERCENTILE_MAX_MS
  }

  function Clipped(rows: seq<Percentiles>): (values: seq<real>)
    ensures forall r :: r in rows ==> Clip(r.p50) in values && Clip(r.p90) in values && Clip(r.p99) in values
    ensures forall v :: v in values ==> exists r ::
        r in rows && (v == Clip(r.p50) || v == Clip(r.p90) || v == Clip(r.p99))
  {
    if rows == [] then [] else
    var first := rows[0];
    assert rows == [first] + rows[1..];
    [Clip(first.p50), Clip(first.p90), Clip(first.p99)] + Clipped(rows[1..])
  }

  /** The x coordinate of a value on an axis. */
  function X(axis: Axis, value: real, log10: real -> real): Result<real> {
    match Position(axis, Clip(value), log10)
    case Ok(position) => Ok(PLOT_LEFT + position * PLOT_WIDTH)
    case Rejected(why) => Rejected(why)
  }

  /** P50, P90 and P99 of one row: inside the plot, in order, and apart when the clipped values are. */
  ghost predicate Drawn(row: Percentiles, mark: Percentiles) {
    && PLOT_LEFT <= mark.p50 <= mark.p90 <= mark.p99 <= PLOT_LEFT + PLOT_WIDTH
    && (mark.p50 < mark.p90 <==> Clip(row.p50) < Clip(row.p90))
    && (mark.p90 < mark.p99 <==> Clip(row.p90) < Clip(row.p99))
  }

  lemma XOrdered(axis: Axis, a: real, b: real, log10: real -> real)
    requires Sound(axis) && IsLog10(log10) && a <= b
    requires Placeable(axis, Clip(a)) && Placeable(axis, Clip(b))
    ensures X(axis, a, log10).Ok? && X(axis, b, log10).Ok?
    ensures PLOT_LEFT <= X(axis, a, log10).value <= X(axis, b, log10).value <= PLOT_LEFT + PLOT_WIDTH
    ensures X(axis, a, log10).value < X(axis, b, log10).value <==> Clip(a) < Clip(b)
  {
    PositionWithin(axis, Clip(a), log10);
    PositionWithin(axis, Clip(b), log10);
    if Clip(a) < Clip(b) {
      PositionsOrdered(axis, Clip(a), Clip(b), log10);
    }
  }

  ghost predicate RowPlaceable(axis: Axis, row: Percentiles) {
    Placeable(axis, Clip(row.p50)) && Placeable(axis, Clip(row.p90)) && Placeable(axis, Clip(row.p99))
  }

  /** percentile_range_marks. */
  function Marks(axis: Axis, row: Percentiles, log10: real -> real): Result<Percentiles> {
    if !row.Ordered() then Rejected("Non-monotonic pooled percentiles") else
    match (X(axis, row.p50, log10), X(axis, row.p90, log10), X(axis, row.p99, log10))
    case (Ok(p50), Ok(p90), Ok(p99)) => Ok(Percentiles(p50, p90, p99))
    case _ => Rejected("Unexpected zero on positive logarithmic axis")
  }

  lemma MarksDrawn(axis: Axis, row: Percentiles, log10: real -> real)
    requires Sound(axis) && IsLog10(log10) && RowPlaceable(axis, row)
    ensures Marks(axis, row, log10).Ok? <==> row.Ordered()
    ensures row.Ordered() ==> Drawn(row, Marks(axis, row, log10).value)
  {
    if row.Ordered() {
      XOrdered(axis, row.p50, row.p90, log10);
      XOrdered(axis, row.p90, row.p99, log10);
    }
  }

  /** From zero to 1000 ms in steps of 200, or decades up to 1000 ms that start below every positive value and 1 ms. */
  ghost predicate IsPercentileAxis(axis: Axis, rows: seq<Percentiles>, logarithmic: bool) {
    if !logarithmic then axis.Linear? && axis.scale == Scale(5, 200.0)
    else
      && axis.Logarithmic? && axis.upper == 3 && Pow10(axis.lower) <= 1.0
      && (axis.hasZero <==> SomeZero(rows)) && AllAbove(axis.lower, rows)
      && (Pow10(axis.lower + 1) > 1.0 || SomeLowest(axis.lower, rows))
  }

  ghost predicate SomeZero(rows: seq<Percentiles>) {
    exists row :: row in rows && (row.p50 == 0.0 || row.p90 == 0.0 || row.p99 == 0.0)
  }

  ghost predicate AllAbove(lower: int, rows: seq<Percentiles>) {
    forall row :: row in rows ==> AboveLower(lower, row.p50) && AboveLower(lower, row.p90) && AboveLower(lower, row.p99)
  }

  ghost predicate SomeLowest(lower: int, rows: seq<Percentiles>) {
    exists row :: row in rows && (InLowest(lower, row.p50) || InLowest(lower, row.p90) || InLowest(lower, row.p99))
  }

  predicate AboveLower(lower: int, v: real) {
    v > 0.0 ==> Pow10(lower) <= v
  }

  predicate InLowest(lower: int, v: real) {
    0.0 < v < Pow10(lower + 1)
  }

  /** The x coordinate of a percentile, capped at 1000 ms, on a plot from 310 to 1480. */
  ghost predicate IsMark(axis: Axis, v: real, x: real, log10: real -> real) {
    IsPosition(axis, if v <= 1000.0 then v else 1000.0, (x - 310.0) / 1170.0, log10)
  }

  ghost predicate AreMarks(axis: Axis, row: Percentiles, mark: Percentiles, log10: real -> real) {
    && IsMark(axis, row.p50, mark.p50, log10) && IsMark(axis, row.p90, mark.p90, log10)
    && IsMark(axis, row.p99, mark.p99, log10)
  }

  lemma TwoHundred(step: real)
    requires LeastNice(step, 1000.0 / 6.0)
    ensures step == 200.0
  {
    PowersSmall();
    assert IsNice(200.0, 2, 2);
    var m, e :| IsNice(step, m, e);
    if e > 2 {
      Pow10Grows(2, e);
      AtMost(Pow10(e), 1.0, m as real, Pow10(e));
      assert false;
    }
    if e < 2 {
      BelowDecade(150.0, 2, step, m, e);
      assert false;
    }
  }

  lemma PowersSmall()
    ensures Pow10(0) == 1.0 && Pow10(1) == 10.0 && Pow10(2) == 100.0 && Pow10(3) == 1000.0
  {
    Pow10Next(0);
    Pow10Next(1);
    Pow10Next(2);
  }

  lemma LinearPercentiles(scale: Scale)
    requires Covers(scale, 1000.0, 6)
    ensures scale == Scale(5, 200.0)
  {
    TwoHundred(scale.step);
  }

  lemma UpperDecade(lower: int, upper: int, values: seq<real>)
    requires lower < upper && TightDecades(values, 0, lower, upper) && 1000.0 in values && 1.0 in values
    requires forall v :: v in values ==> v <= 1000.0 && (v > 0.0 ==> Pow10(lower) <= v <= Pow10(upper))
    ensures upper == 3
  {
    PowersSmall();
    if upper < 3 {
      Pow10Grows(upper, 3);
      assert false;
    }
    if upper > 3 {
      if upper == lower + 1 {
        Pow10Grows(0, lower);
        assert false;
      }
      var v :| v in values && Pow10(upper - 1) < v;
      if upper - 1 > 3 {
        Pow10Grows(3, upper - 1);
      }
      assert false;
    }
  }

  /** The values a percentile axis is made from. */
  function PercentileValues(rows: seq<Percentiles>, logarithmic: bool): (values: seq<real>)
    ensures forall v :: v in values <==> v in Clipped(rows) || v == PERCENTILE_MAX_MS || (logarithmic && v == 1.0)
  {
    Clipped(rows) + [PERCENTILE_MAX_MS] + if logarithmic then [1.0] else []
  }

  lemma ZeroIsShown(rows: seq<Percentiles>)
    ensures 0.0 in PercentileValues(rows, true) <==> SomeZero(rows)
  {
  }

  lemma ClipsAreValues(rows: seq<Percentiles>, row: Percentiles)
    requires row in rows
    ensures Clip(row.p50) in PercentileValues(rows, true) && Clip(row.p90) in PercentileValues(rows, true)
    ensures Clip(row.p99) in PercentileValues(rows, true)
  {
  }

  lemma ClipAbove(lower: int, v: real)
    requires Clip(v) > 0.0 ==> Pow10(lower) <= Clip(v)
    ensures AboveLower(lower, v)
  {
  }

  lemma AllAreAbove(lower: int, rows: seq<Percentiles>)
    requires forall v :: v in PercentileValues(rows, true) && v > 0.0 ==> Pow10(lower) <= v
    ensures Pow10(lower) <= 1.0 && AllAbove(lower, rows)
  {
    assert 1.0 in PercentileValues(rows, true);
    forall row | row in rows
      ensures AboveLower(lower, row.p50) && AboveLower(lower, row.p90) && AboveLower(lower, row.p99)
    {
      ClipsAreValues(rows, row);
      ClipAbove(lower, row.p50);
      ClipAbove(lower, row.p90);
      ClipAbove(lower, row.p99);
    }
  }

  lemma LowestIsThere(lower: int, rows: seq<Percentiles>, v: real)
    requires v in PercentileValues(rows, true) && 0.0 < v < Pow10(lower + 1) <= 1.0
    ensures SomeLowest(lower, rows)
  {
    assert v in Clipped(rows);
    var row :| row in rows && (v == Clip(row.p50) || v == Clip(row.p90) || v == Clip(row.p99));
    assert InLowest(lower, row.p50) || InLowest(lower, row.p90) || InLowest(lower, row.p99);
  }

  lemma UpperIsCap(lower: int, upper: int, rows: seq<Percentiles>)
    requires lower < upper && TightDecades(PercentileValues(rows, true), 0, lower, upper)
    requires forall v :: v in PercentileValues(rows, true) && v > 0.0 ==> Pow10(lower) <= v <= Pow10(upper)
    ensures upper == 3
  {
    var values := PercentileValues(rows, true);
    assert 1000.0 in values && 1.0 in values;
    assert forall v :: v in values ==> v <= 1000.0;
    UpperDecade(lower, upper, values);
  }

  lemma SmallestIsLowest(lower: int, upper: int, rows: seq<Percentiles>)
    requires TightDecades(PercentileValues(rows, true), 0, lower, upper)
    ensures Pow10(lower + 1) > 1.0 || SomeLowest(lower, rows)
  {
    var v :| v in PercentileValues(rows, true) && 0.0 < v && Pow10(lower) <= v < Pow10(lower + 1);
    if Pow10(lower + 1) <= 1.0 {
      LowestIsThere(lower, rows, v);
    }
  }

  lemma LogarithmicPercentiles(axis: Axis, rows: seq<Percentiles>)
    requires axis.Logarithmic? && axis.lower < axis.upper
    requires forall v :: v in PercentileValues(rows, true) && v > 0.0 ==> Pow10(axis.lower) <= v <= Pow10(axis.upper)
    requires axis.hasZero <==> 0.0 in PercentileValues(rows, true)
    requires TightDecades(PercentileValues(rows, true), 0, axis.lower, axis.upper)
    ensures IsPercentileAxis(axis, rows, true)
  {
    ZeroIsShown(rows);
    AllAreAbove(axis.lower, rows);
    UpperIsCap(axis.lower, axis.upper, rows);
    SmallestIsLowest(axis.lower, axis.upper, rows);
  }

  /** All marks are where one percentile axis puts their values. */
  ghost predicate MarksTold(rows: seq<Percentiles>, logarithmic: bool, log10: real -> real, marks: seq<Percentiles>) {
    |marks| == |rows| && exists axis ::
      && IsPercentileAxis(axis, rows, logarithmic)
      && forall i :: 0 <= i < |rows| ==> AreMarks(axis, rows[i], marks[i], log10)
  }

  lemma MarksArePlaced(axis: Axis, row: Percentiles, log10: real -> real)
    requires Sound(axis) && IsLog10(log10) && RowPlaceable(axis, row) && row.Ordered()
    ensures Marks(axis, row, log10).Ok? && AreMarks(axis, row, Marks(axis, row, log10).value, log10)
  {
    MarksDrawn(axis, row, log10);
    PositionIs(axis, Clip(row.p50), log10);
    PositionIs(axis, Clip(row.p90), log10);
    PositionIs(axis, Clip(row.p99), log10);
  }

  lemma AxisOfPercentiles(axis: Axis, rows: seq<Percentiles>, logarithmic: bool)
    requires Sound(axis) && forall v :: v in PercentileValues(rows, logarithmic) ==> Placeable(axis, v)
    requires !logarithmic ==> axis.Linear? && Covers(axis.scale, Max(PercentileValues(rows, logarithmic)), 6)
    requires logarithmic ==>
               axis.Logarithmic? && (axis.hasZero <==> 0.0 in PercentileValues(rows, logarithmic)) &&
               TightDecades(PercentileValues(rows, logarithmic), 0, axis.lower, axis.upper)
    ensures IsPercentileAxis(axis, rows, logarithmic)
    ensures forall row :: row in rows ==> RowPlaceable(axis, row)
  {
    if logarithmic {
      LogarithmicPercentiles(axis, rows);
    } else {
      MaxIsCap(rows);
      LinearPercentiles(axis.scale);
    }
  }

  lemma MaxIsCap(rows: seq<Percentiles>)
    ensures PercentileValues(rows, false) != [] && Max(PercentileValues(rows, false)) == 1000.0
  {
    assert PERCENTILE_MAX_MS in PercentileValues(rows, false);
    assert forall v :: v in PercentileValues(rows, false) ==> v <= 1000.0;
  }

  method PercentileAxis(rows: seq<Percentiles>, logarithmic: bool, log10: real -> real) returns (axis: Axis)
    requires IsLog10(log10)
    requires forall row :: row in rows ==> 0.0 <= row.p50 && 0.0 <= row.p90 && 0.0 <= row.p99
    ensures Sound(axis) && forall row :: row in rows ==> RowPlaceable(axis, row)
    ensures IsPercentileAxis(axis, rows, logarithmic)
  {
    var values := PercentileValues(rows, logarithmic);
    var r := ValueAxis(values, logarithmic, 6, false, log10);
    axis := r.value;
    assert PERCENTILE_MAX_MS in values && PERCENTILE_MAX_MS != 0.0;
    AxisOfPercentiles(axis, rows, logarithmic);
  }

  /**
    The marks of a percentile chart. With non-negative percentiles the only refusal is the ordering
    check: in neither scale mode can a position fail or leave the plot.
   */
  method PercentileMarks(rows: seq<Percentiles>, logarithmic: bool, log10: real -> real)
    returns (r: Result<seq<Percentiles>>)
    requires IsLog10(log10)
    requires forall row :: row in rows ==> 0.0 <= row.p50 && 0.0 <= row.p90 && 0.0 <= row.p99
    ensures r.Ok? <==> forall row :: row in rows ==> row.Ordered()
    ensures r.Ok? ==> |r.value| == |rows| && forall i :: 0 <= i < |rows| ==> Drawn(rows[i], r.value[i])
    ensures r.Ok? ==> MarksTold(rows, logarithmic, log10, r.value)
  {
    var axis := PercentileAxis(rows, logarithmic, log10);
    var marks := [];
    for i := 0 to |rows|
      invariant |marks| == i && forall j :: 0 <= j < i ==> rows[j].Ordered() && Drawn(rows[j], marks[j])
      invariant forall j :: 0 <= j < i ==> AreMarks(axis, rows[j], marks[j], log10)
    {
      MarksDrawn(axis, rows[i], log10);
      if rows[i].Ordered() {
        MarksArePlaced(axis, rows[i], log10);
      }
      match Marks(axis, rows[i], log10) {
        case Ok(mark) => marks := marks + [mark];
        case Rejected(why) => return Rejected(why);
      }
    }
    r := Ok(marks);
  }
}
