/** Definitions shared by the three scripts: the normalised trouble-code
    record, Python's `x if x else None`, the `random.uniform` draw, and the
    fuel-consumption formula that both collectors implement identically. */
module Telemetry {
  import opened Wrappers

  /** A diagnostic trouble code as it appears in a snapshot: {code, description}. */
  datatype Dtc = Dtc(code: string, description: string)

  function MaxReal(a: real, b: real): (m: real) { if a >= b then a else b }
  function MinReal(a: real, b: real): (m: real) { if a <= b then a else b }

  /** A `random.random()` draw. */
  predicate IsUnit(u: real) { 0.0 <= u < 1.0 }

  /** `random.uniform(a, b)`, which CPython computes as `a + (b - a) * random()`. */
  function Uniform(a: real, b: real, u: real): (x: real)
    requires a <= b && IsUnit(u)
    ensures a <= x <= b
    ensures a < b ==> x < b
  {
    var w := b - a;
    assert 0.0 <= w * u by { assert w >= 0.0 && u >= 0.0; }
    assert w * u == w - w * (1.0 - u);
    assert 0.0 <= w * (1.0 - u) by { assert 1.0 - u > 0.0; }
    assert w > 0.0 ==> 0.0 < w * (1.0 - u);
    a + w * u
  }

  /** `round(x, n) if x else None` with the rounding left out: a missing value
      and a zero value are both reported as absent. */
  function IfTruthy(x: Option<real>): (r: Option<real>)
    ensures r.Some? <==> x.Some? && x.value != 0.0
    ensures r.Some? ==> r == x
  {
    if x.Some? && x.value != 0.0 then x else None
  }

  const AirFuelRatio: real := 14.7
  /** Density of gasoline, g/L. */
  const GasDensity: real := 720.0

  /** The pair returned by `_calculate_fuel_consumption`: (km/L, L/h). */
  datatype Consumption = Consumption(kmPerLiter: Option<real>, fuelFlow: Option<real>)

  /** Fuel flow in L/h for a mass-air-flow rate `maf` in g/s. */
  function FuelFlow(maf: real): (flow: real)
    ensures flow * (AirFuelRatio * GasDensity) == maf * 3600.0
    ensures flow > 0.0 <==> maf > 0.0
    ensures flow == 0.0 <==> maf == 0.0
  {
    (maf * 3600.0) / (AirFuelRatio * GasDensity)
  }

  /** `_calculate_fuel_consumption(speed, maf)`. */
  function CalculateFuelConsumption(speed: Option<real>, maf: Option<real>): (c: Consumption)
    ensures (speed.None? || maf.None? || speed == Some(0.0)) <==> c == Consumption(None, None)
    ensures c.fuelFlow.Some? <==> c.kmPerLiter.Some?
    ensures c.fuelFlow.Some? ==>
              c.fuelFlow.value * (AirFuelRatio * GasDensity) == maf.value * 3600.0
    ensures c.kmPerLiter.Some? && c.fuelFlow.value > 0.0 ==>
              c.kmPerLiter.value * c.fuelFlow.value == speed.value
    ensures c.kmPerLiter.Some? && c.fuelFlow.value <= 0.0 ==> c.kmPerLiter.value == 0.0
  {
    if speed.None? || maf.None? || speed.value == 0.0 then
      Consumption(None, None)
    else
      var flow := FuelFlow(maf.value);
      var kml := if flow > 0.0 then speed.value / flow else 0.0;
      Consumption(Some(kml), Some(flow))
  }

  /** The worked example: 80 km/h with a MAF of 8 g/s burns 28800/10584
      (about 2.72) L/h, that is 29.4 km/L. */
  lemma WorkedExample()
    ensures CalculateFuelConsumption(Some(80.0), Some(8.0))
            == Consumption(Some(29.4), Some(28800.0 / 10584.0))
  {
  }

  /** A present speed with a positive air flow always yields a positive flow,
      and a km/L figure of the same sign as the speed. */
  lemma PositiveFlowGivesEfficiency(speed: real, maf: real)
    requires speed != 0.0 && maf > 0.0
    ensures var c := CalculateFuelConsumption(Some(speed), Some(maf));
            c.fuelFlow.Some? && c.fuelFlow.value > 0.0 &&
            c.kmPerLiter.Some? && (c.kmPerLiter.value > 0.0 <==> speed > 0.0)
  {
    var c := CalculateFuelConsumption(Some(speed), Some(maf));
    var flow := c.fuelFlow.value;
    assert c.kmPerLiter.value * flow == speed;
    if speed > 0.0 {
      assert c.kmPerLiter.value > 0.0;
    } else {
      assert c.kmPerLiter.value <= 0.0;
    }
  }

  /** What a snapshot reports for km/L and L/h: a zero or missing air flow
      makes both absent, exactly like a zero or missing speed. */
  lemma SnapshotConsumptionAbsent(speed: Option<real>, maf: Option<real>)
    requires speed.None? || maf.None? || speed == Some(0.0) || maf == Some(0.0)
    ensures var c := CalculateFuelConsumption(speed, maf);
            IfTruthy(c.kmPerLiter).None? && IfTruthy(c.fuelFlow).None?
  {
  }
}
