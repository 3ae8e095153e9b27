# Twin-paradox spacetime diagrams: the geometry, in Dafny

This project models the relativistic geometry behind the Earth-frame diagram of
the twin paradox. Earth stays at x = 0. The traveler flies to a planet at
distance `x_planet` at speed `v`, turns round, and flies back. The diagram shows
these elements:

- the worldlines of Earth and of the two legs;
- the x'/t' axes of the outbound frame, with length ticks on x';
- the x''/t'' axes of the return frame;
- light rays sent from Earth;
- age markers on the traveler's worldline, each joined by a dotted line to the
  Earth event the traveler regards as simultaneous, some with a light ray back
  to Earth.

Modules:

- `Lorentz` (`lorentz.dfy`): the boost of `src/maths.py` over `real`, and its
  assumed inverse. Dafny has no square root, so the Lorentz factor `gamma` is a
  parameter with `IsLorentzFactor(v, gamma)`: `-1 < v < 1`, `gamma > 0` and
  `gamma^2 (1 - v^2) = 1`. `LorentzFactor` models the evaluation of
  `1 / sqrt(1 - v**2)` itself, with the square root's value as a parameter.
  It fails with a math domain error for |v| > 1 and a division by zero for |v| = 1.
- `Ranges` (`ranges.dfy`): Python's `range(start, stop, step)` for a positive
  step, and `math.floor` and `math.ceil`. The marker loops are built from these.
- `Drawing` (`drawing.dfy`): the matplotlib `Axes` as a `Canvas` object. Its
  one field is the append-only sequence of drawing commands: a line by its two
  ends, a marker, or an axis arrow.
- `EarthFrame` (`earthframe.dfy`): `src/earthframe.py`. Functions give the
  commands each routine draws. Methods with `while` loops mirror the `for`
  loops and are proved to append exactly those commands. Lemmas state the
  geometry.
- `Script` (`script.dfy`): the earlier first-leg-only variant in `main.py`.
  Its step is fixed at 2. Every marker, the terminal one included, gets a light
  ray. One light ray leaves the origin. The return leg is a bare worldline.
- `Order` (`order.dfy`): small facts about ordering under multiplication that
  the nonlinear proofs use.

The definitions the table's lemmas talk about are these functions:

- `Lorentz.PrimeToReference` is the transform of `src/maths.py:17-19`, and
  `Lorentz.ReferenceToPrime` is its assumed inverse.
- `EarthFrame.AgeAtPlanet` is the age a0 at the planet (`src/earthframe.py:192-196`).
- `EarthFrame.TravelerAgeEvent` and `EarthFrame.SimultaneousOnEarth` are the
  two ends of a marker's dotted line (`src/earthframe.py:347-372`).
- `EarthFrame.Ticks` is the tick loop with its `break` (`src/earthframe.py:157-164`).
- `EarthFrame.FirstLegResult` is the value `_draw_first_leg_explanation`
  returns (`src/earthframe.py:241-257`).
- `EarthFrame.DiagramCommands` is everything `draw` puts on the axes.

`Script` defines its own versions of these for `main.py`:

- `Script.MarkerEvent` and `Script.SimultaneousOnEarth` are the two ends of a
  marker's dotted line (`main.py:185-191`).
- `Script.TravelerAgeCommands` is what `_draw_traveler_age` draws.
- `Script.Markers` is the regular markers at the ages `Script.MarkerAges`,
  which is `range(2, floor(a0), 2)` (`main.py:128-138`).
- `Script.ScriptCommands` is everything `_main` puts on the axes.

These methods require the Lorentz factor:

- The `EarthFrame` methods that transform events require `EarthFrame.Valid`:
  a non-zero speed, a positive age step, and `IsLorentzFactor(v, gamma)`.
  These are `DrawOutboundMarkers`, `DrawReturnMarkers`, `DrawFirstLegFrame`,
  `DrawFirstLegAges`, `DrawFirstLegExplanation`, `DrawSecondLegExplanation`
  and `Draw`.
- `EarthFrame.DrawTravelerAge`, `EarthFrame.DrawLengthTicks`,
  `Script.DrawTravelerAge`, `Script.DrawMarkers` and
  `Script.DrawFirstLegExplanation` require `IsLorentzFactor(v, gamma)` only.
  `Script.DrawFirstLegExplanation` also requires a non-zero speed.
- `Script.Run` requires `IsLorentzFactor(0.5, gamma)`.

`lorentz_transform_reference_to_prime` is called by both diagram files, but it
is not defined in `src/maths.py`. `ReferenceToPrime` models it as an
assumption: the same boost with `-v` and the same `gamma`. `RoundTrip` proves
that this makes it the exact inverse of `lorentz_transform_prime_to_reference`.

The model keeps these choices of the code as written:

- The regular outbound markers are `range(age_step, floor(a0), age_step)`.
  When a0 is not an integer, a multiple of the step equal to floor(a0) is
  skipped, although it is below a0.
- The return-leg markers are `range(ceil(a0), ceil(2*a0), age_step)`. There is
  no terminal marker at the reunion. `ReturnMarkersOnSecondLeg` proves that no
  return marker reaches Earth.
- The return-leg markers draw only their dotted lines: no light rays and no
  square markers.

## Model

| member | source | states |
|---|---|---|
| `Lorentz.LorentzFactor` | src/maths.py:16 | `1 / sqrt(1 - v**2)` succeeds exactly when -1 < v < 1 and then yields a Lorentz factor; it fails with a division by zero exactly at |v| = 1, and with a math domain error for |v| > 1 |
| `Lorentz.PrimeToReferenceChecked` | src/maths.py:5-19 | the whole transform, square root included: it fails exactly when |v| >= 1; otherwise it yields the event that the inverse transform maps back to (x', t') |
| `Lorentz.LorentzFactorUnique` | src/maths.py:16 | gamma is determined by v, so passing it as a parameter loses nothing |
| `Lorentz.LorentzFactorOfReverse` | src/maths.py:16 | gamma depends on v only through v², so v and -v share it |
| `Lorentz.LorentzFactorAboveOne` | src/maths.py:16 | a moving frame has gamma > 1 |
| `Lorentz.LorentzFactorAtLeastOne` | src/maths.py:16 | gamma >= 1, with gamma = 1 exactly when v = 0 |
| `Lorentz.SpeedBelowLight` | src/maths.py:16 | v² < 1 exactly when -1 < v < 1, and v² = 1 exactly when v = ±1 (where the factor is undefined) |
| `Lorentz.IdentityAtRest` | src/maths.py:16-19 | with v = 0 the factor is 1 and both transforms are the identity |
| `Lorentz.BoostUndoneByReverse` | src/maths.py:17-19 | boosting (x, t) = (γ(x'+vt'), γ(t'+vx')) by v and then by -v with the same gamma gives back the event |
| `Lorentz.RoundTrip` | src/maths.py:16-19 | the transform and its assumed inverse undo each other, in both orders |
| `Lorentz.BoostPreservesInterval` | src/maths.py:16-18 | t² − x² is unchanged by the boost |
| `Lorentz.RestPointOnWorldline` | src/maths.py:17-18 | (0, τ) maps onto the line x = v t, at t = γ τ |
| `Lorentz.LightConePreserved` | src/maths.py:17-18 | events with x = t (or x = −t) stay on that light line |
| `Lorentz.SimultaneityIsSlopeV` | src/maths.py:17-18 | two events have the same moving-frame time exactly when dt = v dx between them |
| `Lorentz.ReferenceToPrimeAdditive` | src/maths.py:17-18 | the transform is linear: it commutes with adding a displacement (the return leg measures from the planet) |
| `Lorentz.RestPointOnSegment` | src/earthframe.py:136-137 | for 0 ≤ τ ≤ τ1 the observer's event lies on t = x / v between the origin and its event at τ1 |
| `Ranges.Floor` | src/earthframe.py:214 | `math.floor`: the greatest integer not above r |
| `Ranges.Ceil` | src/earthframe.py:318-320 | `math.ceil`: the least integer not below r |
| `Ranges.RangeShape` | src/earthframe.py:214 | `range(start, stop, step)` is empty iff start ≥ stop, starts at start, goes up by step, stays below stop and ends within one step of it |
| `Ranges.RangeIncreasing` | src/earthframe.py:214 | the range is strictly increasing |
| `Ranges.RangeMembership` | src/earthframe.py:197 | n is in the range iff start ≤ n < stop and n − start is a multiple of step |
| `Ranges.BelowFloor` | src/earthframe.py:214 | n < floor(r) iff n + 1 ≤ r |
| `Ranges.BelowCeil` | src/earthframe.py:318-320 | n < ceil(r) iff n < r |
| `Ranges.FloorCeilOfInteger` | src/earthframe.py:318-320 | floor and ceil are the identity on integers |
| `Drawing.Canvas.constructor` | src/plotting.py:14 | a fresh axes object holds no commands |
| `Drawing.Canvas.DrawLine` | src/plotting.py:56-65 | appends one line command with its two ends, colour and stroke, and nothing else |
| `Drawing.Canvas.DrawMarker` | src/plotting.py:68-86 | appends one marker command |
| `Drawing.Canvas.DrawAxis` | src/plotting.py:106-119 | appends one arrow from the start point by the offset |
| `EarthFrame.DrawLightRay` | src/earthframe.py:431-446 | appends one dotted width-1 line between the ray's two ends |
| `EarthFrame.DrawTravelerAge` | src/earthframe.py:333-428 | appends the dotted simultaneity line, the optional markers and the optional light ray, in source order, and returns the Earth time of the simultaneous event |
| `EarthFrame.DrawEarthExplanation` | src/earthframe.py:73-120 | appends Earth's worldline from (0, 0) to (0, t_reunion), then the x and t axes |
| `EarthFrame.DrawLengthTicks` | src/earthframe.py:156-179 | the tick loop with `break` appends one tick marker per index of the longest prefix of 2, 4, … below floor(x_max) whose ticks are within x_max |
| `EarthFrame.DrawEarthRays` | src/earthframe.py:197-205 | the loop appends one Earth ray per age of `range(0, stop, age_step)` |
| `EarthFrame.DrawOutboundMarkers` | src/earthframe.py:214-226 | the loop appends one outbound marker per age of `range(age_step, floor(a0), age_step)`, with a light ray exactly when age < a0 / 2 |
| `EarthFrame.DrawReturnMarkers` | src/earthframe.py:318-330 | the loop appends one return marker per age of `range(ceil(a0), ceil(2 a0), age_step)` |
| `EarthFrame.DrawFirstLegFrame` | src/earthframe.py:136-189 | appends the outbound worldline, the x' axis, its ticks and the t' axis |
| `EarthFrame.DrawFirstLegAges` | src/earthframe.py:191-239 | appends the Earth rays, the outbound markers and the terminal marker, and returns a0 and the Earth time of the terminal marker |
| `EarthFrame.DrawFirstLegExplanation` | src/earthframe.py:123-257 | draws the whole first leg and returns (a0, d_earth_from_planet), or the division-by-zero failure when a0 = 0 |
| `EarthFrame.DrawSecondLegExplanation` | src/earthframe.py:260-330 | appends the return worldline, the x'' and t'' axes, the Earth marker and the return markers |
| `EarthFrame.Draw` | src/earthframe.py:12-70 | draws the Earth explanation, then both legs, and returns (2 a0, d_earth_from_planet) |
| `EarthFrame.PlanetAtAgeAtPlanet` | src/earthframe.py:192-196 | on a trip the planet event is, in the outbound frame, the traveler's own position x' = 0 at time a0 |
| `EarthFrame.AgeAtPlanetBelowEarthTime` | src/earthframe.py:192-196 | a0 · γ = t_planet and 0 < a0 < t_planet: the traveler is younger at the planet |
| `EarthFrame.DrawReturnsReunionAge` | src/earthframe.py:70 | `draw` returns (2 a0, v a0), and 2 a0 < t_reunion when t_reunion = 2 t_planet |
| `EarthFrame.FirstLegResultValue` | src/earthframe.py:241-257 | the first leg fails only on a0 = 0 (division by zero); otherwise it returns a0 and Earth's distance v a0 |
| `EarthFrame.EarthDistanceAtTurnaround` | src/earthframe.py:241-247 | at the turnaround the traveler's "now" on Earth is t = a0 / γ; Earth is then v a0 away, so the computed Earth speed is v |
| `EarthFrame.EarthTimeAtTurnaroundScaled` | src/earthframe.py:227-239 | the Earth time of the terminal marker times γ is a0 |
| `EarthFrame.EarthRecedesAtSpeed` | src/earthframe.py:241-246 | Earth's distance in the outbound frame at the turnaround is v a0 |
| `EarthFrame.TravelerAgeEventHasAge` | src/earthframe.py:347-367 | the marker event has moving-frame position 0 and time `age` (outbound), or time `age − a0` measured from the planet in the −v frame (return) |
| `EarthFrame.SimultaneousOnEarthIsSimultaneous` | src/earthframe.py:369-372 | the Earth end of the dotted line (0, t − v x) resp. (0, t + v x) is on Earth and simultaneous with the marker in the leg's frame (v resp. −v) |
| `EarthFrame.MarkerSimultaneousWithAge` | src/earthframe.py:369-372 | that Earth event has the marker's own time in the leg's frame: `age` on the way out, `age − a0` since the turnaround on the way back |
| `EarthFrame.OutboundMarkerOnFirstLeg` | src/earthframe.py:347-352 | every outbound marker of age 0 to a0 is on the drawn segment t = x / v from (0, 0) to the planet; the terminal one is the planet event |
| `EarthFrame.ReturnMarkerOnSecondLeg` | src/earthframe.py:359-367 | every return marker of age a0 to 2 a0 is on t = t_planet + (x_planet − x) / v between the planet and Earth; it is at the planet at a0, reaches (0, 2 t_planet) at 2 a0, and has x > 0 before that |
| `EarthFrame.OutboundAgesAre` | src/earthframe.py:214 | the outbound marker ages are exactly the multiples of the step from one step up with age + 1 ≤ a0 |
| `EarthFrame.EarthRayAgesAre` | src/earthframe.py:197 | Earth rays leave at exactly the multiples of the step from 0 with age + 1 ≤ a0 / 2 |
| `EarthFrame.ReturnAgesAre` | src/earthframe.py:318-320 | the return marker ages are exactly ceil(a0) plus multiples of the step, strictly below 2 a0 |
| `EarthFrame.TickIndicesAre` | src/earthframe.py:157 | ticks are tried at exactly the even x' from 2 with x' + 1 ≤ x_max |
| `EarthFrame.OutboundMarkersInsideFirstLeg` | src/earthframe.py:214-226 | every regular outbound marker has 0 < age < a0 and lies on the outbound segment strictly before the planet |
| `EarthFrame.ReturnMarkersOnSecondLeg` | src/earthframe.py:318-330 | every return marker has a0 ≤ age < 2 a0 and lies on the return segment short of Earth: there is no marker at the reunion |
| `EarthFrame.TickEventOnAxis` | src/earthframe.py:158-162 | the tick at x' = i is on the x' axis t = v x, at (i, 0) in the outbound frame |
| `EarthFrame.TicksLongestPrefix` | src/earthframe.py:157-164 | the ticks drawn are a prefix of the candidates, all within x_max, and the first candidate left out is beyond x_max |
| `EarthFrame.TicksOnFirstAxis` | src/earthframe.py:157-172 | every tick drawn is a candidate index, within x_max, and on t = v x at (i, 0) in the outbound frame |
| `EarthFrame.EarthRaysAre` | src/earthframe.py:197-205 | the Earth rays are exactly one per age, each from (0, age) to (1.2 x_planet, age + 1.2 x_planet) with slope +1 |
| `EarthFrame.OutboundMarkerRay` | src/earthframe.py:224 | a marker's commands include a light-coloured line exactly when age < a0 / 2, and it is the ray home |
| `EarthFrame.OutboundMarkerRays` | src/earthframe.py:418-426 | the light-coloured lines among the outbound markers are exactly the rays home of the ages below a0 / 2; each ends on Earth at t + x with slope −1 |
| `EarthFrame.ReturnMarkersAre` | src/earthframe.py:321-330 | the return markers draw exactly one dotted simultaneity line per age and nothing else |
| `EarthFrame.FirstLegAxesAreFrameAxes` | src/earthframe.py:147-189 | the x' arrow is a line of constant t'; on a trip the t' arrow runs along x' = 0 |
| `EarthFrame.SecondLegAxesAreFrameAxes` | src/earthframe.py:285-311 | the x'' arrow has the planet as its midpoint, is a line of constant t'', and starts at the Earth event (0, t_planet + v x_planet), which is simultaneous with the turnaround in the return frame and gets the Earth marker; the t'' arrow runs along x'' = 0 |
| `Script.Derive` | main.py:13-17 | t_planet satisfies v · t_planet = x_planet, x_max = 2 x_planet and t_max = 2 t_planet |
| `Script.DrawTravelerAge` | main.py:174-244 | appends the dotted simultaneity line to (0, t − x v), the optional markers and, always, the light ray home |
| `Script.DrawMarkers` | main.py:128-138 | the loop appends one marker per age of `range(2, floor(a0), 2)` |
| `Script.DrawFirstLegExplanation` | main.py:65-148 | appends the leg, the x' and t' axes, the ray from the origin, the regular markers and one terminal marker at a0 |
| `Script.DrawSecondLegExplanation` | main.py:151-171 | appends the return worldline only |
| `Script.Run` | main.py:12-62 | `_main` draws Earth's worldline to t_max and both legs for d = 10, v = 0.5 |
| `Script.PlanetAtAgeAtPlanet` | main.py:123-127 | on a trip the traveler at age a0 is at the planet, and a0 · γ = t_planet |
| `Script.MarkerOnFirstLeg` | main.py:185-191 | each marker is on the outbound segment t = x / v, the terminal one at the planet; its dotted line ends on Earth at an event whose moving-frame time is the marker's age |
| `Script.MarkerAgesAre` | main.py:128-138 | the regular markers are drawn at exactly the even ages n from 2 with n + 1 ≤ a0 |
| `Script.EveryMarkerHasRay` | main.py:237-244 | every regular marker age gets a light ray to (0, t + x), of slope −1 |
| `Script.MarkersArePairs` | main.py:129-138 | the regular markers are two commands per age, in the order of the ages: the dotted line from the marker to its simultaneous Earth event, then its light ray home |
| `Script.TripPicture` | main.py:77-162 | the leg runs from the origin to the planet; the x' axis has constant t'; the t' axis runs along x' = 0; the origin ray is on x = t; the terminal marker has its ray; the return leg ends at (0, 2 t_planet) |
| `Script.MainRun` | main.py:12-148 | with d = 10 and v = 0.5: t_planet = 20, x_max = 20, t_max = 40, a0 = 15 γ with 17 < a0 < 18, markers at ages 2, 4, …, 16, and the Earth event simultaneous with the arrival (10, 20) is (0, 15) |

## Left out

- Rendering: the matplotlib calls in `src/plotting.py` are left out. These are
  figure and axes set-up (`draw_figure`, `draw_axes` with its limits, ticks and
  labels), z-order, arrow heads and the HLS arithmetic of `darken`. A colour is
  kept as its name and the number of times it was darkened.
- Text: annotations, the "light" and simultaneity labels, `round(...)`, font
  offsets, the `asin`/`cos` text angle and `ROTATION_CORRECTION` are left out.
  So is the `age == t_planet / 2` test, which only picks a label. The angle
  that `_draw_traveler_age` returns is not modelled; only the Earth time is.
- The `margin` argument is left out. It moves labels and text, and it pads the
  axes limits (`src/earthframe.py:29`, `src/plotting.py:38-39`).
- Lines are kept by their two ends. The `np.linspace` sample points between
  them are not modelled.
- Floating point: all arithmetic is over `real`. IEEE rounding, `inf` and `NaN`
  are not modelled. The square root is a parameter.
- Speed 0: numpy divides the leg's sample array by the speed. It gives `nan`
  for the first sample (0 / 0) and `inf` for the others. The model requires a
  non-zero speed (`Drawable`), because real division by zero has no value.
- `EarthFrame.Draw`: requires `Valid`, so gamma is the Lorentz factor of the
  speed and |v| < 1. For |v| >= 1 the source raises in `1 / sqrt(1 - v**2)`
  (`src/maths.py:16`) at the first transform of `_draw_first_leg_explanation`.
  That is the first length tick (`src/earthframe.py:158`) when floor(x_max) > 2,
  and otherwise `src/earthframe.py:192`. By then Earth's worldline and axes, the
  first leg and the x' axis are drawn. The model does not describe that partial
  picture. `Lorentz.LorentzFactor` and `Lorentz.PrimeToReferenceChecked` model
  the failure itself.
- `EarthFrame.DrawFirstLegExplanation`: requires `Valid` too; same gap for |v| >= 1.
- `EarthFrame.DrawSecondLegExplanation`: requires `Valid` too; same gap for |v| >= 1.
- `EarthFrame.Draw`, `EarthFrame.DrawFirstLegExplanation`,
  `EarthFrame.DrawSecondLegExplanation`, `EarthFrame.DrawOutboundMarkers`,
  `EarthFrame.DrawReturnMarkers`: require age_step > 0 (through `Valid`),
  because `Ranges.Range` models positive steps only. With age_step = 0 the
  source raises `ValueError` from `range` at `src/earthframe.py:197`, after the
  first leg's frame is drawn.
  With a negative step the three age loops (`src/earthframe.py:197`, `:214`,
  `:318`) are empty when a0 >= 0, and the diagram has no markers. The model
  covers neither case.
- `src/travelerframe.py` is not part of this model. It is pure drawing, with
  one halving of the end age.
- The `__main__` entry point and `plt.show()` are not part of this model.
  Neither is the `draw_figure` call in `main.py`, whose arguments do not match
  the function in `src/plotting.py`. `Script.Run` starts from the Earth axes
  that the call returns.
