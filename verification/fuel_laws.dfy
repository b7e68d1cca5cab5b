/** Scaling laws of the cube-law fuel estimate. */
module FuelLaws {
  import opened NavCalc

  /** At the base speed the daily consumption is the base consumption. */
  lemma DailyAtBaseSpeed(speed: real, distance: real, baseConsumption: real)
    requires speed != 0.0
    ensures CalculateFuel(speed, distance, baseConsumption, speed).Fuel?
    ensures CalculateFuel(speed, distance, baseConsumption, speed).daily == baseConsumption
  {
  }

  /** The cube law as a ratio: two speeds against the same base give daily
      consumptions in the ratio of the cubes of the speeds. */
  lemma CubeLawRatio(s1: real, s2: real, d1: real, d2: real, baseConsumption: real, baseSpeed: real)
    requires s1 != 0.0 && s2 != 0.0 && baseSpeed != 0.0
    ensures CalculateFuel(s1, d1, baseConsumption, baseSpeed).daily * Cube(s2)
         == CalculateFuel(s2, d2, baseConsumption, baseSpeed).daily * Cube(s1)
  {
  }

  /** Doubling the speed multiplies the daily consumption by eight. */
  lemma DoublingSpeedMultipliesDailyByEight(speed: real, distance: real, baseConsumption: real, baseSpeed: real)
    requires speed != 0.0 && baseSpeed != 0.0
    ensures CalculateFuel(2.0 * speed, distance, baseConsumption, baseSpeed).daily
         == 8.0 * CalculateFuel(speed, distance, baseConsumption, baseSpeed).daily
  {
  }

  /** Closed form of the total: base consumption * distance / (24 * base
      speed^3), times the speed squared. */
  lemma TotalClosedForm(speed: real, distance: real, baseConsumption: real, baseSpeed: real)
    requires speed != 0.0 && baseSpeed != 0.0
    ensures CalculateFuel(speed, distance, baseConsumption, baseSpeed).total
         == baseConsumption * distance / (HoursPerDay * Cube(baseSpeed)) * (speed * speed)
  {
  }

  /** The total is linear in the distance. */
  lemma TotalLinearInDistance(speed: real, d1: real, d2: real, k: real, baseConsumption: real, baseSpeed: real)
    requires speed != 0.0 && baseSpeed != 0.0
    ensures CalculateFuel(speed, d1 + d2, baseConsumption, baseSpeed).total
         == CalculateFuel(speed, d1, baseConsumption, baseSpeed).total
          + CalculateFuel(speed, d2, baseConsumption, baseSpeed).total
    ensures CalculateFuel(speed, k * d1, baseConsumption, baseSpeed).total
         == k * CalculateFuel(speed, d1, baseConsumption, baseSpeed).total
  {
  }

  /** For a fixed distance the total grows with the square of the speed. */
  lemma TotalQuadraticInSpeed(speed: real, k: real, distance: real, baseConsumption: real, baseSpeed: real)
    requires speed != 0.0 && k != 0.0 && baseSpeed != 0.0
    ensures CalculateFuel(k * speed, distance, baseConsumption, baseSpeed).total
         == k * k * CalculateFuel(speed, distance, baseConsumption, baseSpeed).total
  {
    assert k * speed != 0.0;
    TotalClosedForm(k * speed, distance, baseConsumption, baseSpeed);
    TotalClosedForm(speed, distance, baseConsumption, baseSpeed);
  }
}
