/**
 * Hazard levels of the sensor variants, each a function of the current reading
 * (and, for occupancy, the capacity). The noise sensor's floating-point loudness
 * model is not part of this model.
 */
module Hazards {
  import opened Common
  import opened SensorKinds
  import opened Arith

  /** Carbon dioxide: a step function over half-open ppm bands. */
  function CarbonDioxideHazard(reading: int): (h: int)
    ensures h == 0 || h == 25 || h == 50 || h == 100
    ensures h == 0 <==> reading < 1000
    ensures h == 25 <==> 1000 <= reading < 2000
    ensures h == 50 <==> 2000 <= reading < 5000
    ensures h == 100 <==> 5000 <= reading
  {
    if reading < 1000 then 0
    else if reading < 2000 then 25
    else if reading < 5000 then 50
    else 100
  }

  lemma CarbonDioxideHazardMonotone(r1: int, r2: int)
    requires r1 <= r2
    ensures CarbonDioxideHazard(r1) <= CarbonDioxideHazard(r2)
  {
  }

  /** Temperature: a binary alarm at 68 degrees. */
  function TemperatureHazard(reading: int): (h: int)
    ensures h == 100 <==> reading >= 68
    ensures h == 0 <==> reading < 68
  {
    if reading >= 68 then 100 else 0
  }

  /**
   * Occupancy: reading/capacity as a percentage, clamped at 100 and otherwise
   * rounded half up. With capacity 0 the source divides in floating point: a
   * positive reading gives +Infinity (clamped to 100) and a zero reading gives
   * NaN, which the comparison rejects and rounding maps to 0.
   */
  function OccupancyHazard(reading: int, capacity: int): (h: int)
    requires reading >= 0 && capacity >= 0
    ensures 0 <= h <= 100
    ensures capacity > 0 && reading >= capacity ==> h == 100
    ensures capacity > 0 && reading < capacity ==> 2 * capacity * h <= 200 * reading + capacity < 2 * capacity * (h + 1)
    ensures capacity == 0 ==> (h == 100 <==> reading > 0)
  {
    if capacity == 0 then (if reading > 0 then 100 else 0)
    else if reading >= capacity then 100
    else HalfUpPercentage(reading, capacity)
  }

  /** 100 * reading / capacity rounded half up, for a reading below capacity. */
  function HalfUpPercentage(reading: int, capacity: int): (h: int)
    requires 0 <= reading < capacity
    ensures 0 <= h <= 100
    ensures 2 * capacity * h <= 200 * reading + capacity < 2 * capacity * (h + 1)
  {
    var x, d := 200 * reading + capacity, 2 * capacity;
    var q := x / d;
    RoundingBounds(x, d);
    assert x < d * 101;
    assert q <= 100 by {
      if q > 100 {
        MulMonotone(d, 101, q);
      }
    }
    q
  }

  /** A zero reading with a positive capacity is no hazard. */
  lemma EmptyRoomNoHazard(capacity: int)
    requires capacity > 0
    ensures OccupancyHazard(0, capacity) == 0
  {
  }

  lemma OccupancyHazardMonotone(r1: int, r2: int, capacity: int)
    requires 0 <= r1 <= r2 && capacity >= 0
    ensures OccupancyHazard(r1, capacity) <= OccupancyHazard(r2, capacity)
  {
    if capacity > 0 && r2 < capacity {
      var h1, h2 := OccupancyHazard(r1, capacity), OccupancyHazard(r2, capacity);
      assert 2 * capacity * h1 < 2 * capacity * (h2 + 1);
      MulCancel(2 * capacity, h1, h2 + 1);
    }
  }

  /** The hazard level of a sensor of the given kind; None for the noise sensor. */
  function HazardOf(kind: SensorKind, reading: int): (h: Option<int>)
    requires reading >= 0
    requires kind.Occupancy? ==> kind.capacity >= 0
    ensures h.None? <==> kind.Noise?
    ensures h.Some? ==> 0 <= h.value <= 100
  {
    match kind
    case CarbonDioxide(_, _) => Some(CarbonDioxideHazard(reading))
    case Noise => None
    case Occupancy(c) => Some(OccupancyHazard(reading, c))
    case Temperature => Some(TemperatureHazard(reading))
  }

  /** The CO2 parameters describe an operating range only; they never change the hazard. */
  lemma CarbonDioxideParametersIrrelevant(i1: int, v1: int, i2: int, v2: int, reading: int)
    requires reading >= 0
    ensures HazardOf(CarbonDioxide(i1, v1), reading) == HazardOf(CarbonDioxide(i2, v2), reading)
  {
  }

  /** The CO2 readings 750, 1000, 1500, 2000, 2500, 5000 and 5100 used by the sensor's tests. */
  lemma CarbonDioxideExamples()
    ensures CarbonDioxideHazard(750) == 0 && CarbonDioxideHazard(1000) == 25 && CarbonDioxideHazard(1500) == 25
    ensures CarbonDioxideHazard(2000) == 50 && CarbonDioxideHazard(2500) == 50
    ensures CarbonDioxideHazard(5000) == 100 && CarbonDioxideHazard(5100) == 100
  {
  }

  /** Occupancy 8, 9 and 42 against a capacity of 21. */
  lemma OccupancyExamples()
    ensures OccupancyHazard(8, 21) == 38 && OccupancyHazard(9, 21) == 43 && OccupancyHazard(42, 21) == 100
  {
  }

  /** Temperatures 5, 68 and 69. */
  lemma TemperatureExamples()
    ensures TemperatureHazard(5) == 0 && TemperatureHazard(68) == 100 && TemperatureHazard(69) == 100
  {
  }
}
