# NavCalc formula core in Dafny

A model of the three closed-form formulas of the `NavCalc` maritime
calculator (`main.py`): the speed/time/distance resolver, the cube-law fuel
estimate and the propeller-slip calculation. Each is a pure function over
exact reals, and the lemmas prove how each one picks its branch, its round
trips and its scaling laws.

- `optional.dfy`, module `Optional`: optional keyword arguments (`Option`).
  Python's truthiness rule is `Truthy`: `None` and `0` are both "not given".
- `nav_calc.dfy`, module `NavCalc`: the three operations and their result
  shapes.
  - `StdResult` is `Distance | Speed | Time | NoResult`. It stands for the
    typed dictionary or `None` that `calculate_std` returns.
  - `FuelResult` is `Fuel(total, daily) | ZeroDivision`. It stands for the
    returned pair, or the `ZeroDivisionError` that Python raises for a zero
    speed or zero base speed.
  - `SlipResult` is `Slip(percent, engineSpeed) | SlipSentinel`. It stands
    for the returned pair, or the bare `0` returned when the engine speed is
    zero.
- `std_laws.dfy`, `fuel_laws.dfy` and `slip_laws.dfy`: the properties of
  each operation.

Behaviour worth noting:
- All three STD inputs given is not an error: the distance branch wins.
- A zero engine speed in the slip calculation returns a bare `0`, not a pair
  with zero slip.
- A zero speed in the fuel estimate is not guarded. Python raises
  `ZeroDivisionError` there, and so does a zero base speed.

## Model

| member | source | states |
|---|---|---|
| NavCalc.CalculateStd | main.py:14-24 | Returns a value exactly when at least two arguments are truthy. Each value it returns satisfies distance = speed × time with the two arguments used. The computed quantity is always one whose argument was falsy or not needed. |
| StdLaws.DistanceBranchWins | main.py:15-17 | When speed and time are both truthy, the result is distance = speed × time, whatever distance was passed. |
| StdLaws.SpeedBranch | main.py:18-20 | When speed is falsy and distance and time are truthy, the result is speed = distance / time. |
| StdLaws.TimeBranch | main.py:21-23 | When time is falsy and distance and speed are truthy, the result is time = distance / speed. |
| StdLaws.ZeroIsOmitted | main.py:15-24 | In every position, a literal `0` resolves exactly like an omitted argument. |
| StdLaws.ResolvedSpeedIsUnique | main.py:18-20 | The resolved speed is the only speed that covers the given distance in the given time. |
| StdLaws.ResolvedTimeIsUnique | main.py:21-23 | The resolved time is the only time in which the given speed covers the given distance. |
| StdLaws.SpeedRoundTrip | main.py:15-20 | For non-zero s and t: resolving (s, t) gives s·t, and resolving (omitted speed, t, s·t) gives back s. |
| StdLaws.TimeRoundTrip | main.py:21-23 | For non-zero s and t: resolving (s, omitted time, s·t) gives back t. |
| StdLaws.ResolvedSpeedReproducesDistance | main.py:15-20 | Feeding a resolved speed back in with the same time gives the original distance. |
| StdLaws.ResolvedTimeReproducesDistance | main.py:15-23 | Feeding a resolved time back in with the same speed gives the original distance. |
| NavCalc.CalculateFuel | main.py:37-45 | Division by zero happens exactly when the speed or the base speed is zero. Otherwise daily / base consumption = (speed / base speed)³, and total = daily × (distance / speed) / 24. |
| NavCalc.CalculateFuelAtDefaultBase | main.py:37-45 | With the default base speed of 15 knots: daily × 15³ = base consumption × speed³, and total = daily × (distance / speed) / 24. It fails only for a zero speed. |
| FuelLaws.DailyAtBaseSpeed | main.py:42 | At the base speed, the daily consumption equals the base consumption. |
| FuelLaws.CubeLawRatio | main.py:39-42 | Against the same base, two speeds give daily consumptions in the ratio of their cubes: F1/F2 = (S1/S2)³. |
| FuelLaws.DoublingSpeedMultipliesDailyByEight | main.py:42 | Doubling the speed multiplies the daily consumption by 8. |
| FuelLaws.TotalClosedForm | main.py:42-45 | total = base × distance / (24 × base speed³) × speed². |
| FuelLaws.TotalLinearInDistance | main.py:43-45 | The total is additive and homogeneous in the distance. |
| FuelLaws.TotalQuadraticInSpeed | main.py:42-45 | For a fixed distance, scaling the speed by k scales the total by k². |
| NavCalc.EngineSpeed | main.py:52-54 | The engine speed is zero exactly when the pitch or the rpm is zero. It is pitch × rpm feet per minute, expressed in knots at 6080 ft per nautical mile. |
| NavCalc.CalculateSlip | main.py:48-57 | Returns the sentinel exactly when the pitch or the rpm is zero. Otherwise it returns the engine speed with the slip percentage p, which satisfies actual = engine × (100 − p) / 100. |
| SlipLaws.SentinelWhenPropellerIdle | main.py:54-55 | A zero pitch or a zero rpm gives the sentinel, whatever the observed speed. |
| SlipLaws.NoSlipAtEngineSpeed | main.py:56-57 | An observed speed equal to the engine speed gives slip 0, paired with the engine speed. |
| SlipLaws.FullSlipWhenStationary | main.py:56-57 | An observed speed of 0 gives slip 100, paired with the engine speed. |
| SlipLaws.SlipDecreasesWithSpeed | main.py:56 | With a positive engine speed, a higher observed speed gives strictly less slip. |

## Left out

- `haversine` (main.py:27-34) is not modelled. It is trigonometric floating-point numerics (`sin`, `cos`, `atan2`, `sqrt`), which exact reals cannot express.
- The ETA computation (main.py:129-142) is not modelled. It depends on the clock (`datetime.now()`), on `strptime` parsing and on `timedelta` arithmetic.
- String results are not modelled, only numbers:
  - the `:.2f` text of `calculate_std`'s `value` field;
  - the `duration` string produced from a `timedelta`;
  - all console, `Panel` and `Table` rendering.
- `main()` argument parsing and dispatch (main.py:59-145) are input/output glue and are not modelled. This includes the tuple unpacking at main.py:120, which would fail on the slip sentinel.
- Floating-point rounding, overflow, infinities and NaN are not modelled. The model computes over exact reals, and `x ** 3` is x·x·x.
- `ZeroDivisionError` is a result value (`FuelResult.ZeroDivision`), not an exception that unwinds the caller.
- NavCalc.CalculateStd: does not model the `OverflowError` that `timedelta(hours=t)` raises in the time branch (main.py:23) when the resolved time exceeds the `timedelta` range of 999999999 days. That bound depends on Python's rounding of hours to microseconds, which exact reals do not capture, so the model returns `Time(t)` for every such input.
