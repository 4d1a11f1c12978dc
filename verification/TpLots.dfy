/** For which volume steps the TP1 lots are what they should be: a step multiple that leaves
    part of the position open. Steps are counted in hundredths of a lot. */
module TpLots {
  import opened Sums
  import opened Sizing

  function EffectiveStep(volumeStep: real): real { if volumeStep == 0.0 then 0.01 else volumeStep }

  ghost predicate IsMultiple(r: real, step: real) { exists n: int :: r == Steps(n, step) }

  ghost predicate Proper(r: real, lots: real, step: real) { 0.0 <= r < lots && IsMultiple(r, step) }

  /** Proper for every position and every share of it. */
  ghost predicate AlwaysProper(volumeStep: real)
    requires volumeStep >= 0.0
  {
    forall c: Config, lots: real :: 0.0 < c.tp1Percentage <= 100.0 && lots > 0.0
      ==> Proper(Tp1Lots(c, lots, volumeStep), lots, EffectiveStep(volumeStep))
  }

  /** A position size that sizing comes to when neither limit decides: whole steps, rounded
      to hundredths. */
  ghost predicate IsSize(lots: real, step: real)
    requires step > 0.0
  {
    lots > 0.0 && exists raw: real :: lots == Round2(Stepped(raw, step))
  }

  /** Proper for every such size and every share of it. */
  ghost predicate SizesProper(volumeStep: real)
    requires volumeStep >= 0.0
  {
    forall c: Config, lots: real :: 0.0 < c.tp1Percentage <= 100.0 && IsSize(lots, EffectiveStep(volumeStep))
      ==> Proper(Tp1Lots(c, lots, volumeStep), lots, EffectiveStep(volumeStep))
  }

  /** The TP1 lots are always a step multiple, at least zero and less than the position,
      exactly when the volume step is a whole number of hundredths; and the sizes the
      planner itself makes are enough to break it otherwise. */
  lemma Tp1LotsLeaveARest(volumeStep: real)
    requires volumeStep >= 0.0
    ensures AlwaysProper(volumeStep) <==> Cents(EffectiveStep(volumeStep))
    ensures SizesProper(volumeStep) <==> Cents(EffectiveStep(volumeStep))
  {
    if Cents(EffectiveStep(volumeStep)) {
      CentStepsAreProper(volumeStep);
      SizesArePositions(volumeStep);
    } else {
      assert Cents(0.01);
      var u := volumeStep * 100.0;
      if u > 0.5 {
        CoarseStepsEscape(volumeStep, u);
      } else {
        FineStepsEscape(volumeStep, u);
      }
      if AlwaysProper(volumeStep) {
        SizesArePositions(volumeStep);
      }
    }
  }

  lemma SizesArePositions(volumeStep: real)
    requires volumeStep >= 0.0 && AlwaysProper(volumeStep)
    ensures SizesProper(volumeStep)
  {
  }

  lemma CentStepsAreProper(volumeStep: real)
    requires volumeStep >= 0.0 && Cents(EffectiveStep(volumeStep))
    ensures AlwaysProper(volumeStep)
  {
    assert Cents(0.01);
    forall c: Config, lots: real | 0.0 < c.tp1Percentage <= 100.0 && lots > 0.0
      ensures Proper(Tp1Lots(c, lots, volumeStep), lots, EffectiveStep(volumeStep))
    {
      CentStepsLeaveARest(c, lots, if volumeStep == 0.0 then 0.01 else volumeStep);
      assert Tp1Lots(c, lots, 0.01) == Tp1Lots(c, lots, 0.0);
    }
  }

  // ------------------------------------------------------------- steps and rounding

  lemma WholeSteps(n: int, step: real)
    requires step > 0.0
    ensures Stepped(Steps(n, step), step) == Steps(n, step)
  {
    var q := Steps(n, step) / step;
    assert q * step == Steps(n, step);
    if q < n as real {
      Scaled(q, n as real, step, Steps(n, step), Steps(n, step));
    } else if n as real < q {
      Scaled(n as real, q, step, Steps(n, step), Steps(n, step));
    }
  }

  lemma InUnits(n: int, step: real, u: real)
    requires u == step * 100.0
    ensures Steps(n, step) * 100.0 == n as real * u
    ensures Round2(Steps(n, step)) == HalfEven(n as real * u) as real / 100.0
  {
    assert (n as real * step) * 100.0 == n as real * (step * 100.0);
  }

  /** Strictly between two neighbouring multiples there is none. */
  lemma BetweenMultiples(k: int, m: int, step: real, u: real, low: real, high: real)
    requires step > 0.0 && u == step * 100.0 && low == m as real * u && high == (m + 1) as real * u
    requires low < k as real < high
    ensures !IsMultiple(k as real / 100.0, step)
  {
    forall n: int ensures k as real / 100.0 != Steps(n, step) {
      var x := n as real * u;
      InUnits(n, step, u);
      Ordered(n, m, u, x, low);
      Ordered(m + 1, n, u, high, x);
    }
  }

  lemma Ordered(n: int, m: int, u: real, nu: real, mu: real)
    requires u > 0.0 && nu == n as real * u && mu == m as real * u
    ensures n <= m ==> nu <= mu
  {
    Scaled(n as real, m as real, u, nu, mu);
  }

  lemma RoundsTo(y: real, n: int)
    requires -0.5 < y - n as real < 0.5 || (n % 2 == 0 && -0.5 <= y - n as real <= 0.5)
    ensures HalfEven(y) == n
  {
  }

  const WHOLE := Config(0.0, 0.0, 50.0, 100.0, 100.0, 0.01)

  /** There are sizes of any number of steps and more. */
  lemma SomeLargerSize(step: real, u: real, nu: real) returns (lots: real)
    requires step > 0.0 && u == step * 100.0 && nu >= 0.5
    ensures IsSize(lots, step) && lots * 100.0 > nu + 0.5
  {
    var q := (nu + 1.0) / u;
    var m := q.Floor + 1;
    var mu := m as real * u;
    assert q * u == nu + 1.0;
    Scaled(q, m as real, u, nu + 1.0, mu);
    InUnits(m, step, u);
    HalfEvenIsNear(mu);
    WholeSteps(m, step);
    lots := Round2(Stepped(Steps(m, step), step));
    assert lots * 100.0 == HalfEven(mu) as real;
  }

  /** Some percentage asks for just this share. */
  lemma SomePercentage(lots: real, share: real) returns (c: Config)
    requires 0.0 < share <= lots
    ensures 0.0 < c.tp1Percentage <= 100.0 && c.tp1Trigger == 50.0 && Tp1Wish(c, lots) == share
  {
    var part := share / lots;
    assert part * lots == share;
    Scaled(0.0, part, lots, 0.0, share);
    Scaled(part, 1.0, lots, share, lots);
    c := Config(0.0, 0.0, 50.0, part * 100.0, 100.0, 0.01);
  }

  /** A rounding of n steps that is no multiple shows up as TP1 lots. */
  lemma NonMultipleEscapes(volumeStep: real, u: real, n: int, nu: real, k: int)
    requires volumeStep > 0.0 && u == volumeStep * 100.0 && nu == n as real * u
    requires HalfEven(nu) == k && k as real >= u && 0.5 <= nu
    requires !IsMultiple(k as real / 100.0, volumeStep)
    ensures !SizesProper(volumeStep)
  {
    InUnits(n, volumeStep, u);
    WholeSteps(n, volumeStep);
    HalfEvenIsNear(nu);
    var share := Steps(n, volumeStep);
    var lots := SomeLargerSize(volumeStep, u, nu);
    var c := SomePercentage(lots, share);
    assert k as real / 100.0 >= volumeStep && k as real / 100.0 < lots;
    assert Tp1Lots(c, lots, volumeStep) == k as real / 100.0;
    assert !Proper(Tp1Lots(c, lots, volumeStep), lots, volumeStep);
  }

  lemma HalfEvenIsNear(y: real)
    ensures -0.5 <= HalfEven(y) as real - y <= 0.5
  {
  }

  /** n steps round to k, which lies between m and m + 1 steps. */
  lemma RoundedBetween(volumeStep: real, u: real, n: int, nu: real, k: int, m: int, low: real, high: real)
    requires volumeStep > 0.0 && u == volumeStep * 100.0 && nu == n as real * u
    requires HalfEven(nu) == k && k as real >= u && 0.5 <= nu
    requires low == m as real * u && high == (m + 1) as real * u && low < k as real < high
    ensures !SizesProper(volumeStep)
  {
    BetweenMultiples(k, m, volumeStep, u, low, high);
    NonMultipleEscapes(volumeStep, u, n, nu, k);
  }

  // ------------------------------------------------------- steps above half a hundredth

  lemma Repeated(u: real)
    ensures 1 as real * u == u && 2 as real * u == u + u && 3 as real * u == u + u + u && 4 as real * u == u + u + u + u
  {
  }

  /** One, two or three steps round off the multiples. */
  lemma CoarseStepsEscape(volumeStep: real, u: real)
    requires volumeStep > 0.0 && u == volumeStep * 100.0 && u > 0.5 && !Cents(volumeStep)
    ensures !SizesProper(volumeStep)
  {
    var k := HalfEven(u);
    HalfEvenIsNear(u);
    Repeated(u);
    assert u.Floor as real != u;
    if k as real > u {
      RoundedBetween(volumeStep, u, 1, u, k, 1, u, u + u);
    } else if u - k as real <= 0.25 {
      TwoStepsDown(volumeStep, u, k);
    } else if u - (k as real) < 0.5 {
      TwoStepsUp(volumeStep, u, k);
    } else {
      ThreeSteps(volumeStep, u, k);
    }
  }

  lemma TwoStepsDown(volumeStep: real, u: real, k: int)
    requires volumeStep > 0.0 && u == volumeStep * 100.0 && k >= 1 && 0.0 < u - k as real <= 0.25
    ensures !SizesProper(volumeStep)
  {
    var kr := k as real;
    assert (2 * k) as real == kr + kr;
    RoundsTo(u + u, 2 * k);
    assert u < kr + kr < u + u;
    Repeated(u);
    RoundedBetween(volumeStep, u, 2, u + u, 2 * k, 1, u, u + u);
  }

  lemma TwoStepsUp(volumeStep: real, u: real, k: int)
    requires volumeStep > 0.0 && u == volumeStep * 100.0 && k >= 1 && 0.25 < u - k as real < 0.5
    ensures !SizesProper(volumeStep)
  {
    var kr := k as real;
    assert (2 * k + 1) as real == kr + kr + 1.0;
    RoundsTo(u + u, 2 * k + 1);
    Repeated(u);
    RoundedBetween(volumeStep, u, 2, u + u, 2 * k + 1, 2, u + u, u + u + u);
  }

  lemma ThreeSteps(volumeStep: real, u: real, k: int)
    requires volumeStep > 0.0 && u == volumeStep * 100.0 && k >= 1 && u - k as real == 0.5 && HalfEven(u) == k
    ensures !SizesProper(volumeStep)
  {
    Repeated(u);
    ThreeTies(u, k);
    RoundedBetween(volumeStep, u, 3, u + u + u, 3 * k + 2, 3, u + u + u, u + u + u + u);
  }

  lemma ThreeTies(u: real, k: int)
    requires u - k as real == 0.5 && HalfEven(u) == k
    ensures HalfEven(u + u + u) == 3 * k + 2 && (3 * k + 2) as real == u + u + u + 0.5
  {
    TiesAreEven(u, k);
    TieGoesUp(u + u + u, 3 * k + 2);
  }

  lemma TieGoesUp(y: real, n: int)
    requires n % 2 == 0 && n as real == y + 0.5
    ensures HalfEven(y) == n
  {
  }

  lemma TiesAreEven(y: real, k: int)
    requires HalfEven(y) == k && y == k as real + 0.5
    ensures k % 2 == 0
  {
    assert y.Floor == k;
  }

  // ------------------------------------------------------- steps up to half a hundredth

  /** If no number of steps is a hundredth, as many as fit round up to one; otherwise the
      last step before the whole position does. */
  lemma FineStepsEscape(volumeStep: real, u: real)
    requires volumeStep > 0.0 && u == volumeStep * 100.0 && u <= 0.5
    ensures !SizesProper(volumeStep)
  {
    var n, low, high := StepsToTheHundredth(u);
    if low < 1.0 {
      RoundsTo(low, 1);
      RoundedBetween(volumeStep, u, n, low, 1, n, low, high);
    } else {
      WholePositionGoes(volumeStep, u, n);
    }
  }

  lemma StepsToTheHundredth(u: real) returns (n: int, low: real, high: real)
    requires 0.0 < u <= 0.5
    ensures n >= 2 && low == n as real * u && high == (n + 1) as real * u
    ensures low <= 1.0 < high && 0.5 <= 1.0 - u < low
  {
    var q := 1.0 / u;
    n := q.Floor;
    low, high := n as real * u, (n + 1) as real * u;
    assert q * u == 1.0;
    Scaled(n as real, q, u, low, 1.0);
    Scaled(q, (n + 1) as real, u, 1.0, high);
    Scaled(2.0, q, u, u + u, 1.0);
    assert high == low + u;
  }

  /** Both the share and all but one step of it round to the position. */
  lemma LastStepRoundsUp(volumeStep: real, m: int, lots: real)
    requires volumeStep > 0.0 && lots >= volumeStep && lots == Steps(m, volumeStep)
    requires Round2(lots) == lots && Round2(lots - volumeStep) == lots
    ensures Tp1Lots(WHOLE, lots, volumeStep) == lots
  {
    OneStepLess(m, volumeStep);
    WholeSteps(m, volumeStep);
    WholeSteps(m - 1, volumeStep);
    WholeWish(lots);
  }

  lemma OneStepLess(m: int, step: real)
    ensures Steps(m - 1, step) == Steps(m, step) - step
  {
    assert (m - 1) as real == m as real - 1.0;
  }

  lemma WholeWish(lots: real)
    ensures Tp1Wish(WHOLE, lots) == lots
  {
  }

  /** With two or more steps to the hundredth, closing the whole share takes everything. */
  lemma WholePositionGoes(volumeStep: real, u: real, n: int)
    requires volumeStep > 0.0 && u == volumeStep * 100.0 && n >= 2 && n as real * u == 1.0
    ensures exists lots: real :: IsSize(lots, volumeStep) && Tp1Lots(WHOLE, lots, volumeStep) == lots
    ensures !SizesProper(volumeStep)
  {
    var m, lots := if n == 2 then 4 else n, if n == 2 then 0.02 else 0.01;
    AtMostHalf(u, n);
    InUnits(n, volumeStep, u);
    if n == 2 {
      HalfSteps(volumeStep);
    } else {
      RoundsTo(1.0 - u, 1);
      assert (lots - volumeStep) * 100.0 == 1.0 - u;
    }
    WholeSteps(m, volumeStep);
    assert IsSize(lots, volumeStep);
    LastStepRoundsUp(volumeStep, m, lots);
    assert !Proper(Tp1Lots(WHOLE, lots, volumeStep), lots, volumeStep);
  }

  lemma HalfSteps(volumeStep: real)
    requires volumeStep * 100.0 == 0.5
    ensures 0.02 == Steps(4, volumeStep) && Round2(0.02) == 0.02 && Round2(0.02 - volumeStep) == 0.02
  {
    RoundsTo(1.5, 2);
  }

  lemma AtMostHalf(u: real, n: int)
    requires n >= 2 && u > 0.0 && n as real * u == 1.0
    ensures if n == 2 then u == 0.5 else u < 0.5
  {
    if n > 2 {
      Scaled(2.0, n as real, u, u + u, 1.0);
    }
  }

  /** Only steps of at most half a hundredth can make the TP1 lots the whole position. */
  lemma CoarserStepsLeaveSomething(c: Config, lots: real, volumeStep: real)
    requires volumeStep > 0.005 && lots > 0.0
    ensures Tp1Lots(c, lots, volumeStep) < lots
  {
    SteppedIsBelow(lots - volumeStep, volumeStep);
    RoundingAddsAtMostHalf(Stepped(lots - volumeStep, volumeStep));
  }

  lemma RoundingAddsAtMostHalf(x: real)
    ensures Round2(x) <= x + 0.005
  {
  }
}
