/**
  The axes are proved for every function that can stand for log10: strictly increasing on positive
  numbers and exact on powers of ten. Here is one, so those proofs are not about nothing: between two
  powers of ten it goes up in a straight line.
 */
module Logarithms {
  import opened Axes

  lemma {:induction false} Pow10Large(n: nat)
    ensures Pow10(n) >= n as real + 1.0
  {
    if n == 0 {
    } else {
      Pow10Large(n - 1);
    }
  }

  lemma {:induction false} Pow10Inverse(n: nat)
    ensures Pow10(n) * Pow10(0 - n) == 1.0
  {
    if n == 0 {
    } else {
      Pow10Inverse(n - 1);
      assert Pow10(0 - n) == Pow10(0 - (n - 1)) / 10.0;
      assert Pow10(n) * Pow10(0 - n) == (10.0 * Pow10(n - 1)) * (Pow10(0 - (n - 1)) / 10.0);
    }
  }

  lemma Inverse(v: real, w: real, p: real, q: real)
    requires v > 0.0 && w == 1.0 / v && w < p && p * q == 1.0 && p > 0.0 && q > 0.0
    ensures q < v
  {
    assert v * w == 1.0;
    Above(p * v, p, w, v);
    if q >= v {
      AtMost(v * p, v, q, p);
      assert false;
    }
  }

  lemma AboveSome(v: real) returns (e: int)
    requires v > 0.0
    ensures Pow10(e) <= v
  {
    var w := 1.0 / v;
    var n: nat := w.Floor;
    Pow10Large(n);
    Pow10Inverse(n);
    e := 0 - n;
    Inverse(v, w, Pow10(n), Pow10(e));
  }

  ghost predicate InDecade(v: real, e: int) {
    Pow10(e) <= v < Pow10(e + 1)
  }

  lemma {:induction false} SomeDecade(v: real, low: int, span: nat)
    requires Pow10(low) <= v < Pow10(low + span)
    ensures exists e :: InDecade(v, e)
    decreases span
  {
    if v < Pow10(low + 1) {
      assert InDecade(v, low);
    } else {
      SomeDecade(v, low + 1, span - 1);
    }
  }

  lemma EveryNumberHasADecade(v: real)
    requires v > 0.0
    ensures exists e :: InDecade(v, e)
  {
    var low := AboveSome(v);
    var high := v.Floor;
    Pow10Large(high);
    if low < high {
      SomeDecade(v, low, high - low);
    } else {
      if high < low {
        Pow10Grows(high, low);
      }
      assert false;
    }
  }

  ghost function Decade(v: real): (e: int)
    requires v > 0.0
    ensures InDecade(v, e)
  {
    EveryNumberHasADecade(v);
    var e :| InDecade(v, e);
    e
  }

  ghost function Along(v: real, e: int): real {
    e as real + (v - Pow10(e)) / (9.0 * Pow10(e))
  }

  ghost function Log(v: real): real {
    if v > 0.0 then Along(v, Decade(v)) else 0.0
  }

  lemma DecadesOrdered(x: real, y: real)
    requires 0.0 < x <= y
    ensures Decade(x) <= Decade(y)
  {
    if Decade(y) < Decade(x) {
      if Decade(y) + 1 < Decade(x) {
        Pow10Grows(Decade(y) + 1, Decade(x));
      }
      assert false;
    }
  }

  lemma AlongBounds(v: real, e: int)
    requires InDecade(v, e)
    ensures e as real <= Along(v, e) < e as real + 1.0
  {
    Pow10Next(e);
    FractionBound(v - Pow10(e), 9.0 * Pow10(e));
  }

  lemma FractionBound(x: real, y: real)
    requires 0.0 <= x < y
    ensures 0.0 <= x / y < 1.0
  {
    assert x / y * y == x;
  }

  lemma AlongIncreases(x: real, y: real, e: int)
    requires x < y
    ensures Along(x, e) < Along(y, e)
  {
    QuotientIncreases(x - Pow10(e), y - Pow10(e), 9.0 * Pow10(e));
  }

  lemma QuotientIncreases(a: real, b: real, c: real)
    requires a < b && c > 0.0
    ensures a / c < b / c
  {
    var x, y := a / c, b / c;
    assert x * c == a && y * c == b;
    if x >= y {
      AtMost(b, y, x, c);
      assert false;
    }
  }

  lemma LogIncreases(x: real, y: real)
    requires 0.0 < x < y
    ensures Log(x) < Log(y)
  {
    DecadesOrdered(x, y);
    AlongBounds(x, Decade(x));
    AlongBounds(y, Decade(y));
    if Decade(x) == Decade(y) {
      AlongIncreases(x, y, Decade(x));
    }
  }

  lemma LogOfPower(e: int)
    ensures Log(Pow10(e)) == e as real
  {
    var v := Pow10(e);
    Pow10Next(e);
    var d := Decade(v);
    if d < e {
      if d + 1 < e {
        Pow10Grows(d + 1, e);
      }
      assert false;
    }
    if e < d {
      Pow10Grows(e, d);
      assert false;
    }
  }

  /** There is a function with the properties the axes need of log10. */
  lemma SomeLog10()
    ensures exists log10: real -> real :: IsLog10(log10)
  {
    var log10 := (v: real) => Log(v);
    forall x, y | 0.0 < x < y
      ensures log10(x) < log10(y)
    {
      LogIncreases(x, y);
    }
    forall e {:trigger log10(Pow10(e))}
      ensures log10(Pow10(e)) == e as real
    {
      LogOfPower(e);
    }
    assert IsLog10(log10);
  }
}
