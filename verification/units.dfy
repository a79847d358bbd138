/** Linear distances (inches, yards), the size of one minute of angle (MOA)
    at a given range, and the half-MOA adjustment a sight can be set to.
    Every quantity is an exact `real`; the original works in single precision. */
module Units {

  /** Yards per inch, as the system defines it (an approximation of 1/36). */
  const INCH_YARD_RATIO: real := 0.0277
  /** Inches covered by one MOA at 100 yards. */
  const INCH_MOA_YARD_PERCENTAGE: real := 1.047
  /** The step an adjustment knob clicks in, in MOA. */
  const ADJUSTMENT_ROUND: real := 0.5

  function Abs(x: real): real { if x < 0.0 then -x else x }

  /** Integer part of `x`, rounding toward zero. */
  function Trunc(x: real): (r: int)
    ensures 0.0 <= x ==> 0 <= r && r as real <= x < r as real + 1.0
    ensures x < 0.0 ==> r <= 0 && r as real - 1.0 < x <= r as real
  {
    if x >= 0.0 then x.Floor else -((-x).Floor)
  }

  /** Fractional part of `x`; it carries the sign of `x`. */
  function Fract(x: real): (r: real)
    ensures Trunc(x) as real + r == x
    ensures 0.0 <= x ==> 0.0 <= r < 1.0
    ensures x < 0.0 ==> -1.0 < r <= 0.0
  {
    x - Trunc(x) as real
  }

  /** `k` clicks of the adjustment knob, in MOA. */
  function HalfSteps(k: int): real {
    k as real * ADJUSTMENT_ROUND
  }

  /** `x` is a whole number of half-MOA clicks. */
  ghost predicate IsHalfStep(x: real) {
    exists k: int :: HalfSteps(k) == x
  }

  /** A distance measured in yards. */
  datatype Yard = Yard(units: real) {

    /** A copy of this distance in the same unit. */
    function Distance(): (r: Yard)
      ensures r.units == units
    {
      Yard(units)
    }

    /** Inches one MOA covers at this range. */
    function Moa(): (r: Inch)
      ensures r.units == 0.0 <==> units == 0.0
      ensures units > 0.0 <==> r.units > 0.0
    {
      Inch(units / 100.0 * INCH_MOA_YARD_PERCENTAGE)
    }
  }

  /** A distance measured in inches. */
  datatype Inch = Inch(units: real) {

    /** A copy of this distance in the same unit. */
    function Distance(): (r: Inch)
      ensures r.units == units
    {
      Inch(units)
    }

    /** Inches one MOA covers at a range given in inches. */
    function Moa(): (r: Inch)
      ensures r.units == 0.0 <==> units == 0.0
      ensures units > 0.0 <==> r.units > 0.0
    {
      Inch(units * INCH_YARD_RATIO / 100.0 * INCH_MOA_YARD_PERCENTAGE)
    }
  }

  /** Inches to yards. */
  function InchToYard(value: Inch): (r: Yard)
    ensures r.units / INCH_YARD_RATIO == value.units
  {
    Yard(value.units * INCH_YARD_RATIO)
  }

  /** Yards to inches. */
  function YardToInch(value: Yard): (r: Inch)
    ensures r.units * INCH_YARD_RATIO == value.units
  {
    Inch(value.units / INCH_YARD_RATIO)
  }

  /** A raw, not yet discretised, number of MOA to move the sight. */
  datatype MOAAdjustment = MOAAdjustment(amount: real) {

    /** The adjustment the code picks on the half-MOA grid (as written; see
        `NearestHalf` for the nearest half step). */
    function GoodEnough(): (r: real)
      ensures r == Trunc(amount) as real - ADJUSTMENT_ROUND
           || r == Trunc(amount) as real
           || r == Trunc(amount) as real + ADJUSTMENT_ROUND
      ensures amount - 1.0 < r < amount + 0.5
    {
      var integer := Trunc(amount) as real;
      var decimal := Fract(amount);
      var offsetFromRound := ADJUSTMENT_ROUND - decimal;
      var r :=
        if offsetFromRound > 0.25 then integer - ADJUSTMENT_ROUND
        else if offsetFromRound > -0.25 then integer + ADJUSTMENT_ROUND
        else integer;
      r
    }

    /** The half step nearest to `amount`, with the same thresholds as
        `GoodEnough` and ties resolved away from zero. */
    function NearestHalf(): (r: real)
      ensures Abs(r - amount) <= 0.25
      ensures (amount < 0.0 ==> r <= 0.0) && (amount > 0.0 ==> r >= 0.0)
    {
      var integer := Trunc(amount) as real;
      var decimal := Abs(Fract(amount));
      var sign := if amount < 0.0 then -1.0 else 1.0;
      var r :=
        if decimal < 0.25 then integer
        else if decimal < 0.75 then integer + sign * ADJUSTMENT_ROUND
        else integer + sign;
      r
    }
  }

  /** The raw number of MOA that moves the point of impact by `inchOffset`
      at range `distance`. */
  function MoaAdjustmentsToZero(inchOffset: Inch, distance: Yard): (r: MOAAdjustment)
    requires distance.units != 0.0
    ensures r.amount * distance.Moa().units == inchOffset.units
  {
    MOAAdjustment(inchOffset.units / distance.Moa().units)
  }

  // ---------------------------------------------------------------------
  // Distances and MOA sizes

  /** One MOA is 1.047 in at 100 yd and 3.25 * 1.047 in at 325 yd. */
  lemma YardMoaSamples()
    ensures Yard(100.0).Moa().units == 1.047
    ensures Yard(325.0).Moa().units == 3.25 * 1.047
  {
  }

  /** MOA size grows linearly with range. */
  lemma YardMoaLinear(d: real, k: real)
    ensures Yard(k * d).Moa().units == k * Yard(d).Moa().units
  {
  }

  /** An inch range has the MOA size of the same range in yards. */
  lemma InchMoaIsYardMoa(i: Inch)
    ensures i.Moa() == InchToYard(i).Moa()
  {
  }

  /** Converting a range to inches keeps its MOA size. */
  lemma YardToInchKeepsMoa(y: Yard)
    ensures YardToInch(y).Moa() == y.Moa()
  {
  }

  /** The MOA sizes of 100 yd and 375 yd, computed on their inch values. */
  lemma InchMoaSamples()
    ensures YardToInch(Yard(100.0)).Moa().units == 1.047
    ensures YardToInch(Yard(375.0)).Moa().units == 3.75 * 1.047
  {
    YardToInchKeepsMoa(Yard(100.0));
    YardToInchKeepsMoa(Yard(375.0));
  }

  /** Yards to inches and back gives the same distance. */
  lemma YardRoundTrip(y: Yard)
    ensures InchToYard(YardToInch(y)) == y
  {
  }

  /** Inches to yards and back gives the same distance. */
  lemma InchRoundTrip(i: Inch)
    ensures YardToInch(InchToYard(i)) == i
  {
  }

  /** 400 yd is 14440.433 in to within 0.001; 4000 in is 110.8 yd. */
  lemma ConversionSamples()
    ensures Abs(YardToInch(Yard(400.0)).units - 14440.433) <= 0.001
    ensures InchToYard(Inch(4000.0)).units == 110.8
  {
  }

  // ---------------------------------------------------------------------
  // Adjustments

  /** 4.188 in at 400 yd is exactly one MOA. */
  lemma OneMoaAtFourHundredYards()
    ensures MoaAdjustmentsToZero(Inch(4.188), Yard(400.0)).amount == 1.0
  {
  }

  /** The offset is recovered from the adjustment and the MOA size, so the
      adjustment is the only one with that property. */
  lemma AdjustmentUnique(inchOffset: Inch, distance: Yard, a: real)
    requires distance.units != 0.0
    requires a * distance.Moa().units == inchOffset.units
    ensures MoaAdjustmentsToZero(inchOffset, distance).amount == a
  {
    var m := distance.Moa().units;
    var r := MoaAdjustmentsToZero(inchOffset, distance).amount;
    assert (r - a) * m == 0.0;
  }

  /** `GoodEnough` always lands on a whole number of half-MOA clicks. */
  lemma GoodEnoughOnGrid(amount: real)
    ensures IsHalfStep(MOAAdjustment(amount).GoodEnough())
  {
    var t := Trunc(amount);
    var r := MOAAdjustment(amount).GoodEnough();
    if r == t as real - ADJUSTMENT_ROUND {
      assert HalfSteps(2 * t - 1) == r;
    } else if r == t as real {
      assert HalfSteps(2 * t) == r;
    } else {
      assert HalfSteps(2 * t + 1) == r;
    }
  }

  /** For an amount in [n, n+1) with n >= 0, the three bands of `GoodEnough`. */
  lemma GoodEnoughNonNegative(amount: real, n: int)
    requires 0 <= n && n as real <= amount < n as real + 1.0
    ensures amount < n as real + 0.25 ==> MOAAdjustment(amount).GoodEnough() == n as real - 0.5
    ensures n as real + 0.25 <= amount < n as real + 0.75 ==> MOAAdjustment(amount).GoodEnough() == n as real + 0.5
    ensures n as real + 0.75 <= amount ==> MOAAdjustment(amount).GoodEnough() == n as real
  {
    assert Trunc(amount) == n;
  }

  /** Every negative amount falls in the lowest band: half a step below its
      truncation. */
  lemma GoodEnoughNegative(amount: real)
    requires amount < 0.0
    ensures MOAAdjustment(amount).GoodEnough() == -((-amount).Floor as real) - 0.5
  {
  }

  /** A whole number of MOA is moved half a step down, 0 included. */
  lemma GoodEnoughWholeNumbers(n: int)
    ensures MOAAdjustment(n as real).GoodEnough() == n as real - 0.5
  {
    if n >= 0 {
      GoodEnoughNonNegative(n as real, n);
    } else {
      assert Trunc(n as real) == n;
      assert Fract(n as real) == 0.0;
    }
  }

  /** In the middle band `GoodEnough` is the nearest half step. */
  lemma GoodEnoughMiddleBandIsNearest(amount: real)
    requires 0.25 <= Fract(amount) < 0.75
    ensures MOAAdjustment(amount).GoodEnough() == MOAAdjustment(amount).NearestHalf()
    ensures Abs(MOAAdjustment(amount).GoodEnough() - amount) <= 0.25
  {
  }

  /** 6 in at 400 yd gives 1.5 MOA, 1 in at 400 yd gives -0.5 MOA and
      1.1 in at 200 yd gives 0.5 MOA. */
  lemma GoodEnoughSamples()
    ensures MoaAdjustmentsToZero(Inch(6.0), Yard(400.0)).GoodEnough() == 1.5
    ensures MoaAdjustmentsToZero(Inch(1.0), Yard(400.0)).GoodEnough() == -0.5
    ensures MoaAdjustmentsToZero(Inch(1.1), Yard(200.0)).GoodEnough() == 0.5
  {
    var cli := MoaAdjustmentsToZero(Inch(1.1), Yard(200.0)).amount;
    assert cli == 1.1 / 2.094;
    GoodEnoughNonNegative(cli, 0);
    var six := MoaAdjustmentsToZero(Inch(6.0), Yard(400.0)).amount;
    assert six == 6.0 / 4.188;
    GoodEnoughNonNegative(six, 1);
    var one := MoaAdjustmentsToZero(Inch(1.0), Yard(400.0)).amount;
    assert one == 1.0 / 4.188;
    GoodEnoughNonNegative(one, 0);
  }

  /** `GoodEnough` is not the nearest half step: 1.0 MOA becomes 0.5,
      8 in at 400 yd (about 1.91 MOA) becomes 1.0 where 2.0 is nearest, and
      2.1 in at 200 yd (about 1.003 MOA) becomes 0.5 where 1.0 is nearest. */
  lemma GoodEnoughMissesNearestHalf()
    ensures MOAAdjustment(1.0).GoodEnough() == 0.5
    ensures MOAAdjustment(1.0).NearestHalf() == 1.0
    ensures MoaAdjustmentsToZero(Inch(8.0), Yard(400.0)).GoodEnough() == 1.0
    ensures MoaAdjustmentsToZero(Inch(8.0), Yard(400.0)).NearestHalf() == 2.0
    ensures MoaAdjustmentsToZero(Inch(2.1), Yard(200.0)).GoodEnough() == 0.5
    ensures MoaAdjustmentsToZero(Inch(2.1), Yard(200.0)).NearestHalf() == 1.0
  {
    var two := MoaAdjustmentsToZero(Inch(2.1), Yard(200.0)).amount;
    assert two == 2.1 / 2.094;
    GoodEnoughNonNegative(two, 1);
    assert Trunc(two) == 1;
    GoodEnoughWholeNumbers(1);
    var eight := MoaAdjustmentsToZero(Inch(8.0), Yard(400.0)).amount;
    assert eight == 8.0 / 4.188;
    GoodEnoughNonNegative(eight, 1);
    assert Trunc(eight) == 1;
  }

  // ---------------------------------------------------------------------
  // The nearest half step

  /** The corrected rounding lands on a whole number of half-MOA clicks. */
  lemma NearestHalfOnGrid(amount: real)
    ensures IsHalfStep(MOAAdjustment(amount).NearestHalf())
  {
    var t := Trunc(amount);
    var d := Abs(Fract(amount));
    var r := MOAAdjustment(amount).NearestHalf();
    var s := if amount < 0.0 then -1 else 1;
    if d < 0.25 {
      assert HalfSteps(2 * t) == r;
    } else if d < 0.75 {
      assert HalfSteps(2 * t + s) == r;
    } else {
      assert HalfSteps(2 * t + 2 * s) == r;
    }
  }

  /** No number of clicks is closer to the amount than `NearestHalf`. */
  lemma NearestHalfIsNearest(amount: real, k: int)
    ensures Abs(MOAAdjustment(amount).NearestHalf() - amount) <= Abs(HalfSteps(k) - amount)
  {
    var r := MOAAdjustment(amount).NearestHalf();
    NearestHalfOnGrid(amount);
    var j :| HalfSteps(j) == r;
    if k != j {
      assert Abs(HalfSteps(k) - r) >= 0.5;
    }
  }

  /** A whole number of clicks is its own nearest half step. */
  lemma NearestHalfFixesHalfSteps(k: int)
    ensures MOAAdjustment(HalfSteps(k)).NearestHalf() == HalfSteps(k)
  {
    var amount := HalfSteps(k);
    var r := MOAAdjustment(amount).NearestHalf();
    NearestHalfOnGrid(amount);
    var j :| HalfSteps(j) == r;
    assert Abs(HalfSteps(j) - HalfSteps(k)) <= 0.25;
    assert j == k;
  }

  /** Reversing the offset reverses the nearest half step. */
  lemma NearestHalfOdd(amount: real)
    ensures MOAAdjustment(-amount).NearestHalf() == -MOAAdjustment(amount).NearestHalf()
  {
    if amount < 0.0 {
      assert Trunc(-amount) == -Trunc(amount);
    } else if amount > 0.0 {
      assert Trunc(-amount) == -Trunc(amount);
    }
  }
}
