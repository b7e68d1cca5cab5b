/** Branch selection, the zero-is-omitted quirk and round trips of the
    speed/time/distance resolver. */
module StdLaws {
  import opened Optional
  import opened NavCalc

  /** Speed and time both given: the distance is computed, whatever distance
      was passed alongside (all three given is not an error). */
  lemma DistanceBranchWins(speed: Option<real>, time: Option<real>, distance: Option<real>)
    requires Truthy(speed) && Truthy(time)
    ensures CalculateStd(speed, time, distance) == Distance(speed.value * time.value)
  {
  }

  /** Speed missing or zero, distance and time given: the speed is computed. */
  lemma SpeedBranch(speed: Option<real>, time: Option<real>, distance: Option<real>)
    requires !Truthy(speed) && Truthy(time) && Truthy(distance)
    ensures CalculateStd(speed, time, distance) == Speed(distance.value / time.value)
  {
  }

  /** Time missing or zero, distance and speed given: the time is computed. */
  lemma TimeBranch(speed: Option<real>, time: Option<real>, distance: Option<real>)
    requires !Truthy(time) && Truthy(speed) && Truthy(distance)
    ensures CalculateStd(speed, time, distance) == Time(distance.value / speed.value)
  {
  }

  /** A literal zero in any position resolves exactly as an omitted argument. */
  lemma ZeroIsOmitted(speed: Option<real>, time: Option<real>, distance: Option<real>)
    ensures CalculateStd(Some(0.0), time, distance) == CalculateStd(None, time, distance)
    ensures CalculateStd(speed, Some(0.0), distance) == CalculateStd(speed, None, distance)
    ensures CalculateStd(speed, time, Some(0.0)) == CalculateStd(speed, time, None)
  {
  }

  /** The resolved speed is the only speed that covers the given distance in
      the given time. */
  lemma ResolvedSpeedIsUnique(speed: Option<real>, time: Option<real>, distance: Option<real>, v: real)
    requires CalculateStd(speed, time, distance).Speed?
    requires v * time.value == distance.value
    ensures CalculateStd(speed, time, distance) == Speed(v)
  {
  }

  /** The resolved time is the only time in which the given speed covers the
      given distance. */
  lemma ResolvedTimeIsUnique(speed: Option<real>, time: Option<real>, distance: Option<real>, h: real)
    requires CalculateStd(speed, time, distance).Time?
    requires speed.value * h == distance.value
    ensures CalculateStd(speed, time, distance) == Time(h)
  {
  }

  /** Distance from speed and time, then speed back from that distance and
      the same time, gives the original speed. */
  lemma SpeedRoundTrip(s: real, t: real)
    requires s != 0.0 && t != 0.0
    ensures CalculateStd(Some(s), Some(t), None) == Distance(s * t)
    ensures CalculateStd(None, Some(t), Some(s * t)) == Speed(s)
  {
  }

  /** Distance from speed and time, then time back from that distance and
      the same speed, gives the original time. */
  lemma TimeRoundTrip(s: real, t: real)
    requires s != 0.0 && t != 0.0
    ensures CalculateStd(Some(s), None, Some(s * t)) == Time(t)
  {
  }

  /** A resolved speed, fed back with the same time, reproduces the distance
      it was resolved from. */
  lemma ResolvedSpeedReproducesDistance(speed: Option<real>, time: Option<real>, distance: Option<real>)
    requires CalculateStd(speed, time, distance).Speed?
    ensures CalculateStd(Some(CalculateStd(speed, time, distance).knots), time, None) == Distance(distance.value)
  {
  }

  /** A resolved time, fed back with the same speed, reproduces the distance
      it was resolved from. */
  lemma ResolvedTimeReproducesDistance(speed: Option<real>, time: Option<real>, distance: Option<real>)
    requires CalculateStd(speed, time, distance).Time?
    ensures CalculateStd(speed, Some(CalculateStd(speed, time, distance).hours), None) == Distance(distance.value)
  {
  }
}
