/** The formula core of the navigation calculator: the speed/time/distance
    resolver, the cube-law fuel estimate and the propeller-slip calculation.
    Every operation is a pure function over exact reals; the result shapes of
    the calculator (a dictionary or `None`, a pair, a pair or a bare `0`) are
    datatypes here. */
module NavCalc {
  import opened Optional

  // ---------------------------------------------------------------------
  // Speed / time / distance
  // ---------------------------------------------------------------------

  /** What the resolver produces: the missing one of distance (nautical
      miles), speed (knots) and time (hours), or nothing at all. */
  datatype StdResult =
    | Distance(nm: real)
    | Speed(knots: real)
    | Time(hours: real)
    | NoResult

  /** Resolves the third of speed, time and distance from the other two.
      An argument counts as given only when it is truthy, so a literal zero
      is the same as an omitted argument. When speed and time are both given
      the distance is computed, whatever distance was passed; then speed
      from distance and time; then time from distance and speed. */
  function CalculateStd(speed: Option<real>, time: Option<real>, distance: Option<real>): (r: StdResult)
    // a value is produced exactly when at least two arguments are given
    ensures r.NoResult? <==> TruthyCount(speed, time, distance) < 2
    // each resolved value closes distance = speed * time with the two
    // arguments it was computed from, and the third argument was not needed
    ensures r.Distance? ==> Truthy(speed) && Truthy(time) && r.nm == speed.value * time.value
    ensures r.Speed? ==>
              !Truthy(speed) && Truthy(time) && Truthy(distance) && r.knots * time.value == distance.value
    ensures r.Time? ==>
              !Truthy(time) && Truthy(speed) && Truthy(distance) && speed.value * r.hours == distance.value
  {
    if Truthy(speed) && Truthy(time) then
      Distance(speed.value * time.value)
    else if Truthy(distance) && Truthy(time) then
      Speed(distance.value / time.value)
    else if Truthy(distance) && Truthy(speed) then
      Time(distance.value / speed.value)
    else
      NoResult
  }

  // ---------------------------------------------------------------------
  // Fuel estimate (cube law)
  // ---------------------------------------------------------------------

  /** Base speed, in knots, assumed when the caller gives none. */
  const DefaultBaseSpeed: real := 15.0

  const HoursPerDay: real := 24.0

  function Cube(x: real): real {
    x * x * x
  }

  /** The estimate as a pair (total fuel for the voyage, daily consumption),
      or the division by zero that a zero speed or zero base speed raises. */
  datatype FuelResult =
    | Fuel(total: real, daily: real)
    | ZeroDivision

  /** Daily consumption scales with the cube of speed relative to the base
      speed at which `baseConsumption` per day was measured; the voyage
      takes distance / speed hours, and the total is the daily rate times
      the voyage length in days. */
  function CalculateFuel(speed: real, distance: real, baseConsumption: real, baseSpeed: real): (r: FuelResult)
    ensures r.ZeroDivision? <==> speed == 0.0 || baseSpeed == 0.0
    // cube law: daily / baseConsumption == (speed / baseSpeed)^3
    ensures r.Fuel? ==> r.daily * Cube(baseSpeed) == baseConsumption * Cube(speed)
    // total fuel over a voyage of distance / speed hours at the daily rate
    ensures r.Fuel? ==> r.total * HoursPerDay * speed == r.daily * distance
  {
    if baseSpeed == 0.0 || speed == 0.0 then
      ZeroDivision
    else
      var daily := baseConsumption * Cube(speed / baseSpeed);
      var days := (distance / speed) / HoursPerDay;
      Fuel(daily * days, daily)
  }

  /** The fuel estimate with the base speed left at its default. */
  function CalculateFuelAtDefaultBase(speed: real, distance: real, baseConsumption: real): (r: FuelResult)
    ensures r.ZeroDivision? <==> speed == 0.0
    ensures r.Fuel? ==> r.daily * 3375.0 == baseConsumption * Cube(speed)
    ensures r.Fuel? ==> r.total * HoursPerDay * speed == r.daily * distance
  {
    CalculateFuel(speed, distance, baseConsumption, DefaultBaseSpeed)
  }

  // ---------------------------------------------------------------------
  // Propeller slip
  // ---------------------------------------------------------------------

  const FeetPerNauticalMile: real := 6080.0

  const MinutesPerHour: real := 60.0

  /** Either the slip percentage with the theoretical engine speed, or the
      bare zero returned in place of that pair when the engine speed is zero. */
  datatype SlipResult =
    | SlipSentinel
    | Slip(percent: real, engineSpeed: real)

  /** The speed in knots at which a propeller of `pitch` feet turning at
      `rpm` would advance through the water with no slip: pitch * rpm feet
      per minute, converted to nautical miles per hour. */
  function EngineSpeed(pitch: real, rpm: real): (knots: real)
    ensures knots == 0.0 <==> pitch == 0.0 || rpm == 0.0
    // feet travelled in an hour, measured in nautical miles
    ensures knots * FeetPerNauticalMile == pitch * rpm * MinutesPerHour
  {
    (pitch * rpm * MinutesPerHour) / FeetPerNauticalMile
  }

  /** Slip is the shortfall of the observed speed against the engine speed,
      as a percentage of the engine speed. A zero engine speed gives the
      sentinel instead, and no division is attempted. */
  function CalculateSlip(pitch: real, rpm: real, actualSpeed: real): (r: SlipResult)
    ensures r.SlipSentinel? <==> pitch == 0.0 || rpm == 0.0
    ensures r.Slip? ==> r.engineSpeed == EngineSpeed(pitch, rpm) && r.engineSpeed != 0.0
    // the percentage is exactly the one that turns the engine speed into the
    // observed speed
    ensures r.Slip? ==> actualSpeed == r.engineSpeed * (100.0 - r.percent) / 100.0
  {
    var engine := EngineSpeed(pitch, rpm);
    if engine == 0.0 then
      SlipSentinel
    else
      Slip(((engine - actualSpeed) / engine) * 100.0, engine)
  }
}
