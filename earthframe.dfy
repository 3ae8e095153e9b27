/**
 The Earth-frame diagram of the twin paradox (src/earthframe.py): Earth's
 worldline, the traveler's two legs, the axes of the traveler's two frames,
 length ticks on the outbound x' axis, light rays, and age markers joined to
 the Earth event the traveler regards as simultaneous.
 */
module EarthFrame {
  import opened Lorentz
  import opened Ranges
  import opened Drawing
  import opened Order

  /**
   The parameters of `draw` that the geometry depends on. `gamma` is the
   Lorentz factor of `speed`, which the source recomputes inside every call of
   the Lorentz transform.
   */
  datatype Setup = Setup(
    xMax: real, tMax: real, tReunion: real,
    xPlanet: real, tPlanet: real,
    speed: real, gamma: real,
    ageStep: int,
    firstLegColour: Colour, secondLegColour: Colour, earthColour: Colour,
    leg: Stroke)

  /** What the pictures are defined for: a moving traveler (the legs divide by the speed) and a positive age step. */
  predicate Drawable(s: Setup)
  {
    s.speed != 0.0 && s.ageStep > 0
  }

  /**
   A drawable setup whose `gamma` is the Lorentz factor of its speed, so that
   every Lorentz transform the drawing routines make succeeds (|v| < 1).
   */
  predicate Valid(s: Setup)
  {
    Drawable(s) && IsLorentzFactor(s.speed, s.gamma)
  }

  /** The trip the diagram is meant for: the planet lies ahead and is reached at t = x / v. */
  predicate Trip(s: Setup)
  {
    Valid(s) && s.speed > 0.0 && s.xPlanet > 0.0 && s.tPlanet == s.xPlanet / s.speed
  }

  const Origin: Event := Event(0.0, 0.0)
  const LightColour: Colour := Colour("green", 0)
  const LengthStep: int := 2
  const TickShape: string := "|"

  function Planet(s: Setup): Event
  {
    Event(s.xPlanet, s.tPlanet)
  }

  /** The velocity of the frame of a leg: v on the way out, -v on the way back. */
  function LegVelocity(s: Setup, firstLeg: bool): real
  {
    if firstLeg then s.speed else -s.speed
  }

  /** On the drawn outbound segment t = x / v from the origin to x = xPlanet. */
  predicate OnFirstLeg(s: Setup, e: Event)
    requires s.speed != 0.0
  {
    0.0 <= e.x <= s.xPlanet && e.t == e.x / s.speed
  }

  /** On the drawn return segment t = tPlanet + (xPlanet - x) / v back to x = 0. */
  predicate OnSecondLeg(s: Setup, e: Event)
    requires s.speed != 0.0
  {
    0.0 <= e.x <= s.xPlanet && e.t == s.tPlanet + (s.xPlanet - e.x) / s.speed
  }

  predicate OnEarth(e: Event)
  {
    e.x == 0.0
  }

  /** The traveler's age at the planet: the time of the planet event in the outbound frame. */
  function AgeAtPlanet(s: Setup): real
  {
    ReferenceToPrime(Planet(s), s.speed, s.gamma).t
  }

  /** On a trip the planet is the outbound traveler's own position x' = 0 at age a0. */
  lemma PlanetAtAgeAtPlanet(s: Setup)
    requires Trip(s)
    ensures ReferenceToPrime(Planet(s), s.speed, s.gamma) == Event(0.0, AgeAtPlanet(s))
    ensures PrimeToReference(Event(0.0, AgeAtPlanet(s)), s.speed, s.gamma) == Planet(s)
  {
    var m := ReferenceToPrime(Planet(s), s.speed, s.gamma);
    LorentzFactorOfReverse(s.speed, s.gamma);
    MultiplyBack(s.xPlanet, s.speed);
    assert m.x == s.gamma * (s.xPlanet + -s.speed * s.tPlanet);
    RoundTrip(Planet(s), s.speed, s.gamma);
  }

  /**
   The Earth-frame event of the traveler at `age`: on the outbound leg the
   traveler's origin x' = 0 at time `age`; on the return leg the point reached
   `age - a0` after the turnaround, in the frame moving at -v.
   */
  function TravelerAgeEvent(s: Setup, firstLeg: bool, age: real): Event
  {
    if firstLeg then
      PrimeToReference(Event(0.0, age), s.speed, s.gamma)
    else
      var q := PrimeToReference(Event(0.0, age - AgeAtPlanet(s)), -s.speed, s.gamma);
      Event(s.xPlanet + q.x, s.tPlanet + q.t)
  }

  /**
   The marker event is where the traveler is at `age`: at x' = 0 and t' = age
   in the outbound frame, or, on the return leg, at x'' = 0 and t'' = age - a0
   in the frame moving at -v measured from the planet.
   */
  lemma TravelerAgeEventHasAge(s: Setup, firstLeg: bool, age: real)
    requires Valid(s)
    ensures IsLorentzFactor(-s.speed, s.gamma)
    ensures var p := TravelerAgeEvent(s, firstLeg, age);
            firstLeg ==> ReferenceToPrime(p, s.speed, s.gamma) == Event(0.0, age)
    ensures var p := TravelerAgeEvent(s, firstLeg, age);
            !firstLeg ==>
              ReferenceToPrime(Event(p.x - s.xPlanet, p.t - s.tPlanet), -s.speed, s.gamma)
              == Event(0.0, age - AgeAtPlanet(s))
  {
    LorentzFactorOfReverse(s.speed, s.gamma);
    var p := TravelerAgeEvent(s, firstLeg, age);
    if firstLeg {
      RoundTrip(Event(0.0, age), s.speed, s.gamma);
    } else {
      var q := PrimeToReference(Event(0.0, age - AgeAtPlanet(s)), -s.speed, s.gamma);
      RoundTrip(Event(0.0, age - AgeAtPlanet(s)), -s.speed, s.gamma);
      assert Event(p.x - s.xPlanet, p.t - s.tPlanet) == q;
    }
  }

  /**
   The Earth event joined to a marker by the dotted line: on Earth, and at the
   same time as the marker in the frame of the leg.
   */
  function SimultaneousOnEarth(s: Setup, firstLeg: bool, p: Event): Event
  {
    Event(0.0, p.t + p.x * s.speed * (if firstLeg then -1.0 else 1.0))
  }

  /** The Earth event joined to a marker is on Earth and simultaneous with it in the leg's frame. */
  lemma SimultaneousOnEarthIsSimultaneous(s: Setup, firstLeg: bool, p: Event)
    requires Valid(s)
    ensures OnEarth(SimultaneousOnEarth(s, firstLeg, p))
    ensures SameMovingTime(p, SimultaneousOnEarth(s, firstLeg, p), LegVelocity(s, firstLeg), s.gamma)
  {
    LorentzFactorOfReverse(s.speed, s.gamma);
    SimultaneityIsSlopeV(p, SimultaneousOnEarth(s, firstLeg, p), LegVelocity(s, firstLeg), s.gamma);
  }

  /** `_draw_light_ray`: a dotted width-1 line. */
  function LightRay(from: Event, to: Event, colour: Colour): Command
  {
    Line(from, to, colour, Dotted)
  }

  /** What `_draw_traveler_age` draws, in order. */
  function TravelerAgeCommands(s: Setup, firstLeg: bool, age: real, colour: Colour,
                               light: Option<Colour>, travelerMarker: Option<Colour>,
                               earthMarker: Option<Colour>): seq<Command>
  {
    var p := TravelerAgeEvent(s, firstLeg, age);
    var e := SimultaneousOnEarth(s, firstLeg, p);
    [Line(p, e, colour, Dotted)]
    + (if travelerMarker.Some? then [Marker(p, travelerMarker.value, SquareShape)] else [])
    + (if earthMarker.Some? then [Marker(e, earthMarker.value, SquareShape)] else [])
    + (if light.Some? then [RayHome(p, light.value)] else [])
  }

  /** The light ray from a marker back to Earth, reaching it at t + x. */
  function RayHome(p: Event, colour: Colour): Command
  {
    LightRay(p, Event(0.0, p.t + p.x), colour)
  }

  /** The light ray sent from Earth at `age` to beyond the planet. */
  function EarthRay(s: Setup, age: int): Command
  {
    LightRay(Event(0.0, age as real), Event(s.xPlanet * 1.2, age as real + s.xPlanet * 1.2), LightColour)
  }

  /** `_draw_earth_explanation` without its text: Earth's worldline and the x and t axes. */
  function EarthExplanation(s: Setup): seq<Command>
  {
    [ Line(Origin, Event(0.0, s.tReunion), s.earthColour, s.leg),
      Arrow("x", Origin, Event(s.xMax, 0.0), Darken(s.earthColour)),
      Arrow("t", Origin, Event(0.0, s.tMax), Darken(s.earthColour)) ]
  }

  /** The Earth-frame event of the length tick at x' = i on the outbound x' axis. */
  function TickEvent(s: Setup, i: int): Event
  {
    PrimeToReference(Event(i as real, 0.0), s.speed, s.gamma)
  }

  /** A tick lies on the x' axis t = v x, at distance i along it in the outbound frame. */
  lemma TickEventOnAxis(s: Setup, i: int)
    requires Valid(s)
    ensures TickEvent(s, i).t == s.speed * TickEvent(s, i).x
    ensures ReferenceToPrime(TickEvent(s, i), s.speed, s.gamma) == Event(i as real, 0.0)
  {
    RoundTrip(Event(i as real, 0.0), s.speed, s.gamma);
  }

  /**
   The ticks the loop with `break` draws: the longest prefix of `xs` whose
   ticks are at most xMax from Earth.
   */
  function Ticks(s: Setup, xs: seq<int>): seq<int>
  {
    if |xs| == 0 || TickEvent(s, xs[0]).x > s.xMax then []
    else [xs[0]] + Ticks(s, xs[1..])
  }

  /** The ticks drawn are a prefix of the candidates, all within xMax, and the first one left out is beyond it. */
  lemma {:induction false} TicksLongestPrefix(s: Setup, xs: seq<int>)
    requires Valid(s)
    ensures var r := Ticks(s, xs);
            && |r| <= |xs| && r == xs[..|r|]
            && (forall k :: 0 <= k < |r| ==> TickEvent(s, r[k]).x <= s.xMax)
            && (|r| < |xs| ==> TickEvent(s, xs[|r|]).x > s.xMax)
  {
    if |xs| > 0 && TickEvent(s, xs[0]).x <= s.xMax {
      TicksLongestPrefix(s, xs[1..]);
      var r, tail := Ticks(s, xs), Ticks(s, xs[1..]);
      assert r == [xs[0]] + tail;
      forall k | 0 < k < |r|
        ensures TickEvent(s, r[k]).x <= s.xMax
      {
        assert r[k] == tail[k - 1];
      }
      assert xs == [xs[0]] + xs[1..];
    }
  }

  function TickMarkers(s: Setup, xs: seq<int>): seq<Command>
  {
    if |xs| == 0 then []
    else TickMarkers(s, xs[..|xs| - 1]) + [Marker(TickEvent(s, xs[|xs| - 1]), Darken(s.firstLegColour), TickShape)]
  }

  /** The light rays sent from Earth at the given ages, up and to the right. */
  function EarthRays(s: Setup, ages: seq<int>): seq<Command>
  {
    if |ages| == 0 then []
    else
      EarthRays(s, ages[..|ages| - 1]) + [EarthRay(s, ages[|ages| - 1])]
  }

  /** The regular outbound markers; those before half the age at the planet send a light ray home. */
  function OutboundMarkers(s: Setup, ages: seq<int>): seq<Command>
  {
    if |ages| == 0 then []
    else
      OutboundMarkers(s, ages[..|ages| - 1]) + OutboundMarker(s, ages[|ages| - 1])
  }

  /** The terminal outbound marker at the planet, with square markers on the leg and on Earth. */
  function TerminalMarker(s: Setup): seq<Command>
  {
    TravelerAgeCommands(s, true, AgeAtPlanet(s), Darken(s.firstLegColour),
                        None, Some(Darken(s.firstLegColour)), Some(Darken(s.earthColour)))
  }

  function OutboundAges(s: Setup): seq<int>
    requires Drawable(s)
  {
    Range(s.ageStep, Floor(AgeAtPlanet(s)), s.ageStep)
  }

  function EarthRayAges(s: Setup): seq<int>
    requires Drawable(s)
  {
    Range(0, Floor(AgeAtPlanet(s) / 2.0), s.ageStep)
  }

  function ReturnAges(s: Setup): seq<int>
    requires Drawable(s)
  {
    Range(Ceil(AgeAtPlanet(s)), Ceil(AgeAtPlanet(s) * 2.0), s.ageStep)
  }

  function TickIndices(s: Setup): seq<int>
  {
    Range(LengthStep, Floor(s.xMax), LengthStep)
  }

  /** The outbound worldline t = x / v and the x' axis along t = v x. */
  function FirstLegAxes(s: Setup): seq<Command>
    requires Drawable(s)
  {
    [ Line(Origin, Event(s.xPlanet, s.xPlanet / s.speed), s.firstLegColour, s.leg),
      Arrow("x'", Origin, Event(s.xMax, s.xMax * s.speed), Darken(s.firstLegColour)) ]
  }

  /** The t' axis, along the outbound worldline past the planet. */
  function TimeAxisFirstLeg(s: Setup): Command
  {
    Arrow("t'", Origin, Event(s.xPlanet * 1.2, s.tPlanet * 1.2), Darken(s.firstLegColour))
  }

  /** The outbound worldline, the x' axis with its length ticks, and the t' axis. */
  function FirstLegFrame(s: Setup): seq<Command>
    requires Drawable(s)
  {
    FirstLegAxes(s) + TickMarkers(s, Ticks(s, TickIndices(s))) + [TimeAxisFirstLeg(s)]
  }

  /** The light rays from Earth, the outbound age markers and the terminal marker at the planet. */
  function FirstLegAges(s: Setup): seq<Command>
    requires Drawable(s)
  {
    EarthRays(s, EarthRayAges(s)) + OutboundMarkers(s, OutboundAges(s)) + TerminalMarker(s)
  }

  /** Everything `_draw_first_leg_explanation` draws, in order. */
  function FirstLegCommands(s: Setup): seq<Command>
    requires Drawable(s)
  {
    FirstLegFrame(s) + FirstLegAges(s)
  }

  /** The Earth time the traveler regards as simultaneous with reaching the planet. */
  function EarthTimeAtTurnaround(s: Setup): real
  {
    SimultaneousOnEarth(s, true, TravelerAgeEvent(s, true, AgeAtPlanet(s))).t
  }

  /**
   The value `_draw_first_leg_explanation` returns: the age at the planet and
   how far away Earth is in the outbound frame at that moment. The division
   for the Earth speed raises when the age is 0.
   */
  function FirstLegResult(s: Setup): Outcome<(real, real)>
  {
    var a0 := AgeAtPlanet(s);
    var d := -ReferenceToPrime(Event(0.0, EarthTimeAtTurnaround(s)), s.speed, s.gamma).x;
    if a0 == 0.0 then Fail(ZeroDivision) else Ok((a0, d))
  }

  /**
   The first leg fails exactly when a0 = 0, with a division by zero, and
   otherwise returns a0 and the distance v a0 to Earth.
   */
  lemma FirstLegResultValue(s: Setup)
    requires Valid(s)
    ensures FirstLegResult(s).Ok? <==> AgeAtPlanet(s) != 0.0
    ensures FirstLegResult(s).Fail? ==> FirstLegResult(s).error == ZeroDivision
    ensures FirstLegResult(s).Ok? ==>
              FirstLegResult(s).value == (AgeAtPlanet(s), s.speed * AgeAtPlanet(s))
  {
    EarthDistanceAtTurnaround(s);
  }

  /** The start of the x'' axis, which is also where the Earth marker of the second leg sits. */
  function SecondAxisStart(s: Setup): Event
  {
    Event(s.xPlanet - s.xPlanet, s.tPlanet - s.xPlanet * -s.speed)
  }

  /** The offset of the x'' axis: twice the way from its start to the planet. */
  function SecondAxisOffset(s: Setup): Event
  {
    Event(2.0 * s.xPlanet, 2.0 * (s.xPlanet * -s.speed))
  }

  /** The return worldline, the axes of the return frame and the Earth marker at the start of x''. */
  function SecondLegFrame(s: Setup): seq<Command>
    requires Drawable(s)
  {
    [ Line(Planet(s), Event(0.0, s.tPlanet + s.xPlanet / s.speed), s.secondLegColour, s.leg),
      Arrow("x''", SecondAxisStart(s), SecondAxisOffset(s), Darken(s.secondLegColour)),
      Arrow("t''", Planet(s), Event(s.xPlanet * -1.2, s.tPlanet * 1.2), Darken(s.secondLegColour)),
      Marker(SecondAxisStart(s), Darken(s.earthColour), SquareShape) ]
  }

  /** Everything `_draw_second_leg_explanation` draws, in order. */
  function SecondLegCommands(s: Setup): seq<Command>
    requires Drawable(s)
  {
    SecondLegFrame(s) + ReturnMarkers(s, ReturnAges(s))
  }

  /** The return-leg markers: dotted lines only, no markers and no light. */
  function ReturnMarkers(s: Setup, ages: seq<int>): seq<Command>
  {
    if |ages| == 0 then []
    else
      ReturnMarkers(s, ages[..|ages| - 1]) + [ReturnLine(s, ages[|ages| - 1])]
  }

  /** Everything `draw` puts on the axes; nothing after the first leg when its division raises. */
  function DiagramCommands(s: Setup): seq<Command>
    requires Drawable(s)
  {
    EarthExplanation(s) + FirstLegCommands(s)
    + (if FirstLegResult(s).Ok? then SecondLegCommands(s) else [])
  }

  /** What `draw` returns: twice the age at the planet, and Earth's distance at the turnaround. */
  function DrawResult(s: Setup): Outcome<(real, real)>
  {
    match FirstLegResult(s)
    case Fail(err) => Fail(err)
    case Ok(r) => Ok((2.0 * r.0, r.1))
  }

  // ---------------------------------------------------------------------------
  // The drawing routines

  /** `_draw_light_ray`. */
  method DrawLightRay(canvas: Canvas, from: Event, to: Event, colour: Colour)
    modifies canvas
    ensures canvas.commands == old(canvas.commands) + [LightRay(from, to, colour)]
  {
    canvas.DrawLine(from, to, colour, Dotted);
  }

  /** `_draw_traveler_age`; it returns the Earth time of the simultaneous event. */
  method DrawTravelerAge(canvas: Canvas, s: Setup, firstLeg: bool, age: real, colour: Colour,
                         light: Option<Colour>, travelerMarker: Option<Colour>,
                         earthMarker: Option<Colour>) returns (tOnEarth: real)
    requires IsLorentzFactor(s.speed, s.gamma)
    modifies canvas
    ensures canvas.commands == old(canvas.commands)
                               + TravelerAgeCommands(s, firstLeg, age, colour, light, travelerMarker, earthMarker)
    ensures tOnEarth == SimultaneousOnEarth(s, firstLeg, TravelerAgeEvent(s, firstLeg, age)).t
  {
    ghost var before := canvas.commands;
    var p := TravelerAgeEvent(s, firstLeg, age);
    var e := SimultaneousOnEarth(s, firstLeg, p);
    canvas.DrawLine(p, e, colour, Dotted);
    ghost var drawn := [Line(p, e, colour, Dotted)];
    if travelerMarker.Some? {
      canvas.DrawMarker(p, travelerMarker.value, SquareShape);
    }
    ghost var piece := if travelerMarker.Some? then [Marker(p, travelerMarker.value, SquareShape)] else [];
    AppendThree(before, drawn, piece);
    drawn := drawn + piece;
    if earthMarker.Some? {
      canvas.DrawMarker(e, earthMarker.value, SquareShape);
    }
    piece := if earthMarker.Some? then [Marker(e, earthMarker.value, SquareShape)] else [];
    AppendThree(before, drawn, piece);
    drawn := drawn + piece;
    if light.Some? {
      DrawLightRay(canvas, p, Event(0.0, p.t + p.x), light.value);
    }
    piece := if light.Some? then [RayHome(p, light.value)] else [];
    AppendThree(before, drawn, piece);
    tOnEarth := e.t;
  }

  /** `_draw_earth_explanation`. */
  method DrawEarthExplanation(canvas: Canvas, s: Setup)
    modifies canvas
    ensures canvas.commands == old(canvas.commands) + EarthExplanation(s)
  {
    canvas.DrawLine(Origin, Event(0.0, s.tReunion), s.earthColour, s.leg);
    canvas.DrawAxis("x", Origin, Event(s.xMax, 0.0), Darken(s.earthColour));
    canvas.DrawAxis("t", Origin, Event(0.0, s.tMax), Darken(s.earthColour));
  }

  /** The length-tick loop: ticks 2, 4, ... below floor(xMax), stopping at the first beyond xMax. */
  method DrawLengthTicks(canvas: Canvas, s: Setup)
    requires IsLorentzFactor(s.speed, s.gamma)
    modifies canvas
    ensures canvas.commands == old(canvas.commands) + TickMarkers(s, Ticks(s, TickIndices(s)))
  {
    var stop := Floor(s.xMax);
    var i := LengthStep;
    ghost var drawn: seq<int> := [];
    ghost var rest := TickIndices(s);
    while i < stop
      invariant rest == Range(i, stop, LengthStep)
      invariant Ticks(s, TickIndices(s)) == drawn + Ticks(s, rest)
      invariant canvas.commands == old(canvas.commands) + TickMarkers(s, drawn)
      decreases stop - i
    {
      RangeUnfold(i, stop, LengthStep);
      var m := PrimeToReference(Event(i as real, 0.0), s.speed, s.gamma);
      if m.x > s.xMax {
        TicksStopAt(s, i, Range(i + LengthStep, stop, LengthStep));
        rest := [];
        break;
      }
      TicksContinueAt(s, i, Range(i + LengthStep, stop, LengthStep));
      assert m == TickEvent(s, i);
      canvas.DrawMarker(m, Darken(s.firstLegColour), TickShape);
      TickMarkersAppend(s, drawn, i);
      assert canvas.commands == old(canvas.commands) + TickMarkers(s, drawn + [i]);
      drawn := drawn + [i];
      i := i + LengthStep;
      rest := Range(i, stop, LengthStep);
    }
    assert Ticks(s, rest) == [];
    assert drawn + [] == drawn;
  }

  lemma TicksStopAt(s: Setup, i: int, xs: seq<int>)
    requires TickEvent(s, i).x > s.xMax
    ensures Ticks(s, [i] + xs) == []
  {
  }

  lemma TicksContinueAt(s: Setup, i: int, xs: seq<int>)
    requires TickEvent(s, i).x <= s.xMax
    ensures Ticks(s, [i] + xs) == [i] + Ticks(s, xs)
  {
    assert ([i] + xs)[1..] == xs;
  }

  lemma TickMarkersAppend(s: Setup, xs: seq<int>, i: int)
    ensures TickMarkers(s, xs + [i]) == TickMarkers(s, xs) + [Marker(TickEvent(s, i), Darken(s.firstLegColour), TickShape)]
  {
    assert (xs + [i])[..|xs|] == xs;
  }

  /** The loop sending light rays from Earth at ages 0, ageStep, ... below floor(a0 / 2). */
  method DrawEarthRays(canvas: Canvas, s: Setup, stop: int)
    requires s.ageStep > 0
    modifies canvas
    ensures canvas.commands == old(canvas.commands) + EarthRays(s, Range(0, stop, s.ageStep))
  {
    var age := 0;
    ghost var done: seq<int> := [];
    while age < stop
      invariant done + Range(age, stop, s.ageStep) == Range(0, stop, s.ageStep)
      invariant canvas.commands == old(canvas.commands) + EarthRays(s, done)
      decreases stop - age
    {
      assert Range(age, stop, s.ageStep) == [age] + Range(age + s.ageStep, stop, s.ageStep);
      DrawLightRay(canvas, Event(0.0, age as real),
                   Event(s.xPlanet * 1.2, age as real + s.xPlanet * 1.2), LightColour);
      assert (done + [age])[..|done|] == done;
      done := done + [age];
      age := age + s.ageStep;
    }
    assert Range(age, stop, s.ageStep) == [];
    assert done == done + [];
  }

  /** The loop over the regular outbound ages ageStep, 2 ageStep, ... below floor(a0). */
  method DrawOutboundMarkers(canvas: Canvas, s: Setup)
    requires Valid(s)
    modifies canvas
    ensures canvas.commands == old(canvas.commands) + OutboundMarkers(s, OutboundAges(s))
  {
    var a0 := AgeAtPlanet(s);
    var stop := Floor(a0);
    var age := s.ageStep;
    ghost var done: seq<int> := [];
    while age < stop
      invariant done + Range(age, stop, s.ageStep) == OutboundAges(s)
      invariant canvas.commands == old(canvas.commands) + OutboundMarkers(s, done)
      decreases stop - age
    {
      RangeUnfold(age, stop, s.ageStep);
      var light := if age as real < a0 / 2.0 then Some(LightColour) else None;
      var _ := DrawTravelerAge(canvas, s, true, age as real, Darken(s.firstLegColour), light, None, None);
      OutboundMarkersAppend(s, done, age);
      done := done + [age];
      age := age + s.ageStep;
    }
    assert Range(age, stop, s.ageStep) == [];
    assert done + [] == done;
  }

  lemma OutboundMarkersAppend(s: Setup, ages: seq<int>, age: int)
    ensures OutboundMarkers(s, ages + [age]) == OutboundMarkers(s, ages) + OutboundMarker(s, age)
  {
    assert (ages + [age])[..|ages|] == ages;
  }

  /** The loop over the return ages ceil(a0), ceil(a0) + ageStep, ... below ceil(2 a0). */
  method DrawReturnMarkers(canvas: Canvas, s: Setup)
    requires Valid(s)
    modifies canvas
    ensures canvas.commands == old(canvas.commands) + ReturnMarkers(s, ReturnAges(s))
  {
    var a0 := AgeAtPlanet(s);
    var stop := Ceil(a0 * 2.0);
    var age := Ceil(a0);
    ghost var all := ReturnAges(s);
    assert all == Range(age, stop, s.ageStep);
    ghost var done: seq<int> := [];
    while age < stop
      invariant done + Range(age, stop, s.ageStep) == all
      invariant canvas.commands == old(canvas.commands) + ReturnMarkers(s, done)
      decreases stop - age
    {
      RangeUnfold(age, stop, s.ageStep);
      var _ := DrawTravelerAge(canvas, s, false, age as real, Darken(s.secondLegColour), None, None, None);
      ReturnMarkersAppend(s, done, age);
      done := done + [age];
      age := age + s.ageStep;
    }
    assert Range(age, stop, s.ageStep) == [];
    assert done + [] == done;
  }

  lemma ReturnMarkersAppend(s: Setup, ages: seq<int>, age: int)
    ensures ReturnMarkers(s, ages + [age]) == ReturnMarkers(s, ages) + [ReturnLine(s, age)]
    ensures TravelerAgeCommands(s, false, age as real, Darken(s.secondLegColour), None, None, None)
            == [ReturnLine(s, age)]
  {
    assert (ages + [age])[..|ages|] == ages;
  }

  /** The first half of `_draw_first_leg_explanation`: the leg and the axes of its frame. */
  method DrawFirstLegFrame(canvas: Canvas, s: Setup)
    requires Valid(s)
    modifies canvas
    ensures canvas.commands == old(canvas.commands) + FirstLegFrame(s)
  {
    ghost var before := canvas.commands;
    var leg := Line(Origin, Event(s.xPlanet, s.xPlanet / s.speed), s.firstLegColour, s.leg);
    var axis := Arrow("x'", Origin, Event(s.xMax, s.xMax * s.speed), Darken(s.firstLegColour));
    assert FirstLegAxes(s)[0] == leg && FirstLegAxes(s)[1] == axis;
    assert FirstLegAxes(s) == [leg] + [axis];
    canvas.DrawLine(leg.from, leg.to, leg.colour, leg.stroke);
    canvas.DrawAxis(axis.caption, axis.start, axis.offset, axis.colour);
    assert canvas.commands == before + FirstLegAxes(s);
    DrawLengthTicks(canvas, s);
    canvas.DrawAxis("t'", Origin, Event(s.xPlanet * 1.2, s.tPlanet * 1.2), Darken(s.firstLegColour));
  }

  /**
   The second half of `_draw_first_leg_explanation`: the light rays and the
   age markers; returns the age at the planet and the Earth time of the
   terminal marker.
   */
  method DrawFirstLegAges(canvas: Canvas, s: Setup) returns (a0: real, tEnd: real)
    requires Valid(s)
    modifies canvas
    ensures canvas.commands == old(canvas.commands) + FirstLegAges(s)
    ensures a0 == AgeAtPlanet(s) && tEnd == EarthTimeAtTurnaround(s)
  {
    ghost var before := canvas.commands;
    a0 := ReferenceToPrime(Planet(s), s.speed, s.gamma).t;
    assert a0 == AgeAtPlanet(s);
    DrawEarthRays(canvas, s, Floor(a0 / 2.0));
    DrawOutboundMarkers(canvas, s);
    assert canvas.commands == before + EarthRays(s, EarthRayAges(s)) + OutboundMarkers(s, OutboundAges(s));
    tEnd := DrawTravelerAge(canvas, s, true, a0, Darken(s.firstLegColour),
                            None, Some(Darken(s.firstLegColour)), Some(Darken(s.earthColour)));
  }

  /** `_draw_first_leg_explanation`: returns (a0, Earth's distance), or fails on the division by a0 = 0. */
  method DrawFirstLegExplanation(canvas: Canvas, s: Setup) returns (r: Outcome<(real, real)>)
    requires Valid(s)
    modifies canvas
    ensures canvas.commands == old(canvas.commands) + FirstLegCommands(s)
    ensures r == FirstLegResult(s)
  {
    DrawFirstLegFrame(canvas, s);
    var a0, tEnd := DrawFirstLegAges(canvas, s);
    var d := -ReferenceToPrime(Event(0.0, tEnd), s.speed, s.gamma).x;
    if a0 == 0.0 {
      r := Fail(ZeroDivision);
    } else {
      r := Ok((a0, d));
    }
  }

  /** `_draw_second_leg_explanation`. */
  method DrawSecondLegExplanation(canvas: Canvas, s: Setup)
    requires Valid(s)
    modifies canvas
    ensures canvas.commands == old(canvas.commands) + SecondLegCommands(s)
  {
    ghost var before := canvas.commands;
    canvas.DrawLine(Planet(s), Event(0.0, s.tPlanet + s.xPlanet / s.speed), s.secondLegColour, s.leg);
    var xOffset := s.xPlanet;
    var tOffset := s.xPlanet * -s.speed;
    canvas.DrawAxis("x''", Event(s.xPlanet - xOffset, s.tPlanet - tOffset),
                    Event(2.0 * xOffset, 2.0 * tOffset), Darken(s.secondLegColour));
    assert Event(s.xPlanet - xOffset, s.tPlanet - tOffset) == SecondAxisStart(s);
    assert Event(2.0 * xOffset, 2.0 * tOffset) == SecondAxisOffset(s);
    canvas.DrawAxis("t''", Planet(s), Event(s.xPlanet * -1.2, s.tPlanet * 1.2), Darken(s.secondLegColour));
    canvas.DrawMarker(Event(s.xPlanet - xOffset, s.tPlanet - tOffset), Darken(s.earthColour), SquareShape);
    AppendFour(before,
               [ Line(Planet(s), Event(0.0, s.tPlanet + s.xPlanet / s.speed), s.secondLegColour, s.leg),
                 Arrow("x''", SecondAxisStart(s), SecondAxisOffset(s), Darken(s.secondLegColour)) ],
               [Arrow("t''", Planet(s), Event(s.xPlanet * -1.2, s.tPlanet * 1.2), Darken(s.secondLegColour))],
               [Marker(SecondAxisStart(s), Darken(s.earthColour), SquareShape)]);
    ghost var frame := SecondLegFrame(s);
    assert canvas.commands == before + frame;
    DrawReturnMarkers(canvas, s);
    AppendThree(before, frame, ReturnMarkers(s, ReturnAges(s)));
  }

  /** `draw`: the whole Earth-frame diagram; returns (2 a0, Earth's distance at the turnaround). */
  method Draw(canvas: Canvas, s: Setup) returns (r: Outcome<(real, real)>)
    requires Valid(s)
    modifies canvas
    ensures canvas.commands == old(canvas.commands) + DiagramCommands(s)
    ensures r == DrawResult(s)
  {
    ghost var before := canvas.commands;
    DrawEarthExplanation(canvas, s);
    var first := DrawFirstLegExplanation(canvas, s);
    AppendThree(before, EarthExplanation(s), FirstLegCommands(s));
    ghost var drawn := EarthExplanation(s) + FirstLegCommands(s);
    if first.Fail? {
      assert drawn + [] == drawn;
      return Fail(first.error);
    }
    DrawSecondLegExplanation(canvas, s);
    AppendThree(before, drawn, SecondLegCommands(s));
    var (a0, d) := first.value;
    r := Ok((2.0 * a0, d));
  }

  // ---------------------------------------------------------------------------
  // Lemmas about the age at the planet and the turnaround

  /**
   At the turnaround the traveler regards Earth time a0 / gamma as "now", and
   Earth is then v * a0 away in the outbound frame: Earth recedes at the speed v.
   */
  lemma EarthDistanceAtTurnaround(s: Setup)
    requires Valid(s)
    ensures EarthTimeAtTurnaround(s) * s.gamma == AgeAtPlanet(s)
    ensures -ReferenceToPrime(Event(0.0, EarthTimeAtTurnaround(s)), s.speed, s.gamma).x == s.speed * AgeAtPlanet(s)
    ensures AgeAtPlanet(s) != 0.0 ==>
              -ReferenceToPrime(Event(0.0, EarthTimeAtTurnaround(s)), s.speed, s.gamma).x / AgeAtPlanet(s) == s.speed
  {
    EarthTimeAtTurnaroundScaled(s);
    EarthRecedesAtSpeed(s);
    if AgeAtPlanet(s) != 0.0 {
      DivideBack(-ReferenceToPrime(Event(0.0, EarthTimeAtTurnaround(s)), s.speed, s.gamma).x,
                 AgeAtPlanet(s), s.speed);
    }
  }

  lemma EarthTimeAtTurnaroundScaled(s: Setup)
    requires Valid(s)
    ensures EarthTimeAtTurnaround(s) * s.gamma == AgeAtPlanet(s)
  {
    TurnaroundTerms(s);
    ContractedByFactor(s.gamma, s.speed, AgeAtPlanet(s), EarthTimeAtTurnaround(s));
  }

  lemma EarthRecedesAtSpeed(s: Setup)
    requires Valid(s)
    ensures -ReferenceToPrime(Event(0.0, EarthTimeAtTurnaround(s)), s.speed, s.gamma).x == s.speed * AgeAtPlanet(s)
  {
    TurnaroundTerms(s);
    EarthTimeAtTurnaroundScaled(s);
    RecedingDistance(s.gamma, s.speed, EarthTimeAtTurnaround(s), AgeAtPlanet(s),
                     -ReferenceToPrime(Event(0.0, EarthTimeAtTurnaround(s)), s.speed, s.gamma).x);
  }

  /** The Earth time at the turnaround and Earth's distance then, written out. */
  lemma TurnaroundTerms(s: Setup)
    ensures var v, g, a0 := s.speed, s.gamma, AgeAtPlanet(s);
            EarthTimeAtTurnaround(s) == g * a0 + g * (0.0 + v * a0) * v * -1.0
    ensures var v, g := s.speed, s.gamma;
            -ReferenceToPrime(Event(0.0, EarthTimeAtTurnaround(s)), v, g).x
            == -(g * (0.0 + -v * EarthTimeAtTurnaround(s)))
  {
    var v, g, a0 := s.speed, s.gamma, AgeAtPlanet(s);
    assert TravelerAgeEvent(s, true, a0) == Event(g * (0.0 + v * a0), g * (a0 + v * 0.0));
  }

  /** (gamma a - gamma v a v) gamma = gamma^2 (1 - v^2) a = a. */
  lemma ContractedByFactor(g: real, v: real, a: real, t: real)
    requires g * g * (1.0 - v * v) == 1.0
    requires t == g * a + g * (0.0 + v * a) * v * -1.0
    ensures t * g == a
  {
    assert t * g == (g * g * (1.0 - v * v)) * a;
  }

  lemma RecedingDistance(g: real, v: real, t: real, a: real, d: real)
    requires t * g == a && d == -(g * (0.0 + -v * t))
    ensures d == v * a
  {
    assert d == v * (t * g);
  }

  /** On a trip the age at the planet is tPlanet / gamma, positive and below tPlanet: the traveler is younger. */
  lemma AgeAtPlanetBelowEarthTime(s: Setup)
    requires Trip(s)
    ensures AgeAtPlanet(s) * s.gamma == s.tPlanet
    ensures 0.0 < AgeAtPlanet(s) < s.tPlanet
  {
    var v, g, a0 := s.speed, s.gamma, AgeAtPlanet(s);
    PlanetAtAgeAtPlanet(s);
    var p := PrimeToReference(Event(0.0, a0), v, g);
    assert p.t == g * (a0 + v * 0.0);
    assert a0 * g == s.tPlanet;
    QuotientPositive(s.xPlanet, v);
    LorentzFactorAboveOne(v, g);
    if a0 <= 0.0 {
      MulLeft(g, a0, 0.0);
    }
    MulLeftStrict(a0, 1.0, g);
  }

  /** `draw` returns (2 a0, v a0), and the traveler comes home younger than Earth. */
  lemma DrawReturnsReunionAge(s: Setup)
    requires Trip(s)
    ensures DrawResult(s) == Ok((2.0 * AgeAtPlanet(s), s.speed * AgeAtPlanet(s)))
    ensures s.tReunion == 2.0 * s.tPlanet ==> 2.0 * AgeAtPlanet(s) < s.tReunion
  {
    AgeAtPlanetBelowEarthTime(s);
    FirstLegResultValue(s);
    var r := FirstLegResult(s);
    assert r.Ok?;
    var (a0, d) := r.value;
    assert a0 == AgeAtPlanet(s) && d == s.speed * AgeAtPlanet(s);
  }

  // ---------------------------------------------------------------------------
  // Lemmas about the markers, the worldlines and simultaneity

  /**
   On a trip, the outbound marker of any age from 0 to a0 is on the drawn
   outbound segment, and the terminal marker at a0 is the planet event itself.
   */
  lemma OutboundMarkerOnFirstLeg(s: Setup, age: real)
    requires Trip(s) && 0.0 <= age <= AgeAtPlanet(s)
    ensures OnFirstLeg(s, TravelerAgeEvent(s, true, age))
    ensures TravelerAgeEvent(s, true, age).t <= s.tPlanet
    ensures age == AgeAtPlanet(s) ==> TravelerAgeEvent(s, true, age) == Planet(s)
  {
    PlanetAtAgeAtPlanet(s);
    RestPointOnSegment(age, AgeAtPlanet(s), s.speed, s.gamma);
  }

  /**
   On a trip, the return marker of any age from a0 to 2 a0 is on the drawn
   return segment; it starts at the planet and reaches Earth at t = 2 tPlanet.
   */
  lemma ReturnMarkerOnSecondLeg(s: Setup, age: real)
    requires Trip(s) && AgeAtPlanet(s) <= age <= 2.0 * AgeAtPlanet(s)
    ensures OnSecondLeg(s, TravelerAgeEvent(s, false, age))
    ensures age == AgeAtPlanet(s) ==> TravelerAgeEvent(s, false, age) == Planet(s)
    ensures age == 2.0 * AgeAtPlanet(s) ==> TravelerAgeEvent(s, false, age) == Event(0.0, 2.0 * s.tPlanet)
    ensures age < 2.0 * AgeAtPlanet(s) ==> TravelerAgeEvent(s, false, age).x > 0.0
  {
    var v, g, a0 := s.speed, s.gamma, AgeAtPlanet(s);
    AgeAtPlanetBelowEarthTime(s);
    MultiplyBack(s.xPlanet, v);
    var q := PrimeToReference(Event(0.0, age - a0), -v, g);
    RestPointOnWorldline(age - a0, -v, g);
    ReturnLegBounds(v, g, a0, age - a0, s.xPlanet, s.tPlanet, q.t);
    assert TravelerAgeEvent(s, false, age) == Event(s.xPlanet - v * q.t, s.tPlanet + q.t);
  }

  /**
   Time t = gamma tau after the turnaround, for 0 <= tau <= a0, the traveler
   is v t back towards Earth: between the planet and Earth, and short of Earth
   before tau = a0.
   */
  lemma ReturnLegBounds(v: real, g: real, a0: real, tau: real, xPlanet: real, tPlanet: real, t: real)
    requires v > 0.0 && g > 0.0 && a0 * g == tPlanet && v * tPlanet == xPlanet
    requires 0.0 <= tau <= a0 && t == g * tau
    ensures 0.0 <= v * t <= xPlanet
    ensures t == (xPlanet - (xPlanet - v * t)) / v
    ensures tau == a0 ==> t == tPlanet && v * t == xPlanet
    ensures tau < a0 ==> v * t < xPlanet
  {
    MulLeft(g, 0.0, tau);
    MulLeft(g, tau, a0);
    MulLeft(v, 0.0, t);
    MulLeft(v, t, tPlanet);
    DivideBack(v * t, v, t);
    if tau < a0 {
      MulLeftStrict(g, tau, a0);
      MulLeftStrict(v, t, tPlanet);
    }
  }

  /**
   The Earth event at the end of a marker's dotted line has, in the frame of
   the leg, the marker's own time: the age on the way out, and the time
   `age - a0` since the turnaround on the way back.
   */
  lemma MarkerSimultaneousWithAge(s: Setup, firstLeg: bool, age: real)
    requires Valid(s)
    ensures var e := SimultaneousOnEarth(s, firstLeg, TravelerAgeEvent(s, firstLeg, age));
            OnEarth(e)
            && (firstLeg ==> ReferenceToPrime(e, s.speed, s.gamma).t == age)
            && (!firstLeg ==> ReferenceToPrime(Event(e.x - s.xPlanet, e.t - s.tPlanet), -s.speed, s.gamma).t
                              == age - AgeAtPlanet(s))
  {
    var p := TravelerAgeEvent(s, firstLeg, age);
    var e := SimultaneousOnEarth(s, firstLeg, p);
    TravelerAgeEventHasAge(s, firstLeg, age);
    SimultaneousOnEarthIsSimultaneous(s, firstLeg, p);
    if !firstLeg {
      var g, w := s.gamma, -s.speed;
      var planet := Planet(s);
      var ep, pp := Event(e.x - s.xPlanet, e.t - s.tPlanet), Event(p.x - s.xPlanet, p.t - s.tPlanet);
      ReferenceToPrimeAdditive(ep, planet, w, g);
      ReferenceToPrimeAdditive(pp, planet, w, g);
      assert Event(ep.x + planet.x, ep.t + planet.t) == e;
      assert Event(pp.x + planet.x, pp.t + planet.t) == p;
    }
  }

  /** Outbound markers are drawn at the multiples of the step from one step up to below floor(a0). */
  lemma OutboundAgesAre(s: Setup, n: int)
    requires Drawable(s)
    ensures n in OutboundAges(s)
            <==> s.ageStep <= n && (n + 1) as real <= AgeAtPlanet(s) && n % s.ageStep == 0
  {
    RangeMembership(s.ageStep, Floor(AgeAtPlanet(s)), s.ageStep, n);
    BelowFloor(n, AgeAtPlanet(s));
    ShiftByStep(n - s.ageStep, s.ageStep);
  }

  /** Light rays leave Earth at ages 0, ageStep, ... below floor(a0 / 2). */
  lemma EarthRayAgesAre(s: Setup, n: int)
    requires Drawable(s)
    ensures n in EarthRayAges(s)
            <==> 0 <= n && (n + 1) as real <= AgeAtPlanet(s) / 2.0 && n % s.ageStep == 0
  {
    RangeMembership(0, Floor(AgeAtPlanet(s) / 2.0), s.ageStep, n);
    BelowFloor(n, AgeAtPlanet(s) / 2.0);
  }

  /** Return markers are drawn from ceil(a0) in steps, strictly before the age 2 a0 at the reunion. */
  lemma ReturnAgesAre(s: Setup, n: int)
    requires Drawable(s)
    ensures n in ReturnAges(s)
            <==> Ceil(AgeAtPlanet(s)) <= n && (n as real) < 2.0 * AgeAtPlanet(s)
                 && (n - Ceil(AgeAtPlanet(s))) % s.ageStep == 0
  {
    RangeMembership(Ceil(AgeAtPlanet(s)), Ceil(AgeAtPlanet(s) * 2.0), s.ageStep, n);
    BelowCeil(n, AgeAtPlanet(s) * 2.0);
  }

  /** Length ticks are tried at x' = 2, 4, ... below floor(xMax). */
  lemma TickIndicesAre(s: Setup, n: int)
    ensures n in TickIndices(s) <==> 2 <= n && (n + 1) as real <= s.xMax && n % 2 == 0
  {
    RangeMembership(LengthStep, Floor(s.xMax), LengthStep, n);
    BelowFloor(n, s.xMax);
    ShiftByStep(n - LengthStep, LengthStep);
  }

  /**
   Every regular outbound marker is strictly between the origin and the
   planet on the outbound segment.
   */
  lemma OutboundMarkersInsideFirstLeg(s: Setup, n: int)
    requires Trip(s) && n in OutboundAges(s)
    ensures 0.0 < n as real < AgeAtPlanet(s)
    ensures OnFirstLeg(s, TravelerAgeEvent(s, true, n as real))
    ensures TravelerAgeEvent(s, true, n as real).t < s.tPlanet
  {
    OutboundAgesAre(s, n);
    OutboundMarkerOnFirstLeg(s, n as real);
    AgeAtPlanetBelowEarthTime(s);
    RestPointOnWorldline(n as real, s.speed, s.gamma);
    MulLeftStrict(s.gamma, n as real, AgeAtPlanet(s));
  }

  /**
   Every return marker is on the return segment and short of Earth: the loop
   never draws a marker at the reunion.
   */
  lemma ReturnMarkersOnSecondLeg(s: Setup, n: int)
    requires Trip(s) && n in ReturnAges(s)
    ensures AgeAtPlanet(s) <= n as real < 2.0 * AgeAtPlanet(s)
    ensures OnSecondLeg(s, TravelerAgeEvent(s, false, n as real))
    ensures TravelerAgeEvent(s, false, n as real).x > 0.0
  {
    ReturnAgesAre(s, n);
    ReturnMarkerOnSecondLeg(s, n as real);
  }

  /** Every tick drawn is on the x' axis t = v x, at distance i in the outbound frame, and within xMax. */
  lemma TicksOnFirstAxis(s: Setup, i: int)
    requires Valid(s) && i in Ticks(s, TickIndices(s))
    ensures i in TickIndices(s) && TickEvent(s, i).x <= s.xMax
    ensures TickEvent(s, i).t == s.speed * TickEvent(s, i).x
    ensures ReferenceToPrime(TickEvent(s, i), s.speed, s.gamma) == Event(i as real, 0.0)
  {
    var xs := TickIndices(s);
    TicksLongestPrefix(s, xs);
    var r := Ticks(s, xs);
    var k :| 0 <= k < |r| && r[k] == i;
    assert xs[k] == i;
    TickEventOnAxis(s, i);
  }

  /**
   The rays from Earth are exactly one per age, each from (0, age) up to the
   right with slope +1.
   */
  lemma {:induction false} EarthRaysAre(s: Setup, ages: seq<int>, c: Command)
    ensures |EarthRays(s, ages)| == |ages|
    ensures c in EarthRays(s, ages) <==> exists age :: age in ages && c == EarthRay(s, age)
    ensures c in EarthRays(s, ages) ==>
              c.Line? && c.from.x == 0.0 && c.to.t - c.from.t == c.to.x - c.from.x
  {
    if |ages| > 0 {
      var init, last := ages[..|ages| - 1], ages[|ages| - 1];
      EarthRaysAre(s, init, c);
      assert ages == init + [last];
      assert EarthRays(s, ages) == EarthRays(s, init) + [EarthRay(s, last)];
      if c in EarthRays(s, init) {
        var age :| age in init && c == EarthRay(s, age);
        assert age in ages;
      }
      if exists age :: age in ages && c == EarthRay(s, age) {
        var age :| age in ages && c == EarthRay(s, age);
        if age != last {
          assert age in init;
        }
      }
    }
  }

  /** The outbound marker of `age`, light ray included when it is younger than a0 / 2. */
  function OutboundMarker(s: Setup, age: int): seq<Command>
  {
    TravelerAgeCommands(s, true, age as real, Darken(s.firstLegColour),
                        if age as real < AgeAtPlanet(s) / 2.0 then Some(LightColour) else None, None, None)
  }

  /** A light-coloured line among the commands of one outbound marker is its ray home, drawn when it is younger than a0 / 2. */
  lemma OutboundMarkerRay(s: Setup, age: int, c: Command)
    ensures c in OutboundMarker(s, age) && c.Line? && c.colour == LightColour
            <==> (age as real) < AgeAtPlanet(s) / 2.0 && c == RayHome(TravelerAgeEvent(s, true, age as real), LightColour)
  {
    assert Darken(s.firstLegColour) != LightColour;
  }

  /**
   The light-coloured lines among the regular outbound markers are exactly the
   rays of the markers younger than a0 / 2, each going back to Earth with
   slope -1.
   */
  lemma {:induction false} OutboundMarkerRays(s: Setup, ages: seq<int>, c: Command)
    ensures c in OutboundMarkers(s, ages) && c.Line? && c.colour == LightColour <==>
              exists age :: age in ages && (age as real) < AgeAtPlanet(s) / 2.0
                && c == RayHome(TravelerAgeEvent(s, true, age as real), LightColour)
    ensures c in OutboundMarkers(s, ages) && c.Line? && c.colour == LightColour ==>
              c.to.x == 0.0 && c.to.t - c.from.t == c.from.x - c.to.x
  {
    if |ages| > 0 {
      var init, last := ages[..|ages| - 1], ages[|ages| - 1];
      OutboundMarkerRays(s, init, c);
      OutboundMarkerRay(s, last, c);
      assert ages == init + [last];
      assert OutboundMarkers(s, ages) == OutboundMarkers(s, init) + OutboundMarker(s, last);
      if c in OutboundMarkers(s, init) && c.Line? && c.colour == LightColour {
        var age :| age in init && (age as real) < AgeAtPlanet(s) / 2.0
                   && c == RayHome(TravelerAgeEvent(s, true, age as real), LightColour);
        assert age in ages;
      }
      if c in OutboundMarker(s, last) && c.Line? && c.colour == LightColour {
        assert last in ages;
      }
      if exists age :: age in ages && (age as real) < AgeAtPlanet(s) / 2.0
                       && c == RayHome(TravelerAgeEvent(s, true, age as real), LightColour) {
        var age :| age in ages && (age as real) < AgeAtPlanet(s) / 2.0
                   && c == RayHome(TravelerAgeEvent(s, true, age as real), LightColour);
        if age != last {
          assert age in init;
        }
      }
    }
  }

  /** The dotted simultaneity line of the return marker of `age`. */
  function ReturnLine(s: Setup, age: int): Command
  {
    var p := TravelerAgeEvent(s, false, age as real);
    Line(p, SimultaneousOnEarth(s, false, p), Darken(s.secondLegColour), Dotted)
  }

  /** The return markers draw only their dotted simultaneity lines, one per age. */
  lemma {:induction false} ReturnMarkersAre(s: Setup, ages: seq<int>, c: Command)
    ensures |ReturnMarkers(s, ages)| == |ages|
    ensures c in ReturnMarkers(s, ages) <==> exists age :: age in ages && c == ReturnLine(s, age)
  {
    if |ages| > 0 {
      var init, last := ages[..|ages| - 1], ages[|ages| - 1];
      ReturnMarkersAre(s, init, c);
      assert ages == init + [last];
      assert ReturnMarkers(s, ages) == ReturnMarkers(s, init) + [ReturnLine(s, last)];
      if c in ReturnMarkers(s, init) {
        var age :| age in init && c == ReturnLine(s, age);
        assert age in ages;
      }
      if exists age :: age in ages && c == ReturnLine(s, age) {
        var age :| age in ages && c == ReturnLine(s, age);
        if age != last {
          assert age in init;
        }
      }
    }
  }

  /**
   The overlaid axes of the outbound frame: the x' arrow runs along a line of
   constant t', and on a trip the t' arrow runs along x' = 0 through the planet.
   */
  lemma FirstLegAxesAreFrameAxes(s: Setup)
    requires Valid(s)
    ensures SameMovingTime(Origin, ArrowTip(FirstLegAxes(s)[1]), s.speed, s.gamma)
    ensures Trip(s) ==> ReferenceToPrime(ArrowTip(TimeAxisFirstLeg(s)), s.speed, s.gamma).x == 0.0
  {
    var tip := ArrowTip(FirstLegAxes(s)[1]);
    SimultaneityIsSlopeV(Origin, tip, s.speed, s.gamma);
    if Trip(s) {
      MultiplyBack(s.xPlanet, s.speed);
      var u := ArrowTip(TimeAxisFirstLeg(s));
      assert u == Event(s.xPlanet * 1.2, s.tPlanet * 1.2);
      assert u.x + -s.speed * u.t == 1.2 * (s.xPlanet - s.speed * s.tPlanet);
    }
  }

  /**
   The overlaid x'' axis of the return frame has the planet as its midpoint
   and is a line of constant t''; it starts at the Earth event the returning
   traveler regards as simultaneous with the turnaround, which gets the Earth
   marker. The t'' arrow runs along the return worldline x'' = 0.
   */
  lemma SecondLegAxesAreFrameAxes(s: Setup)
    requires Valid(s)
    ensures var axis := SecondLegFrame(s)[1];
            axis.Arrow? && axis.caption == "x''"
            && axis.start.x + axis.offset.x / 2.0 == s.xPlanet
            && axis.start.t + axis.offset.t / 2.0 == s.tPlanet
            && SameMovingTime(axis.start, ArrowTip(axis), -s.speed, s.gamma)
            && axis.start == SimultaneousOnEarth(s, false, Planet(s))
    ensures SecondLegFrame(s)[3] == Marker(SimultaneousOnEarth(s, false, Planet(s)), Darken(s.earthColour), SquareShape)
    ensures Trip(s) ==>
              var tAxis := SecondLegFrame(s)[2];
              ReferenceToPrime(tAxis.offset, -s.speed, s.gamma).x == 0.0
  {
    var axis := SecondLegFrame(s)[1];
    LorentzFactorOfReverse(s.speed, s.gamma);
    SimultaneityIsSlopeV(axis.start, ArrowTip(axis), -s.speed, s.gamma);
    if Trip(s) {
      MultiplyBack(s.xPlanet, s.speed);
      var o := SecondLegFrame(s)[2].offset;
      assert o == Event(s.xPlanet * -1.2, s.tPlanet * 1.2);
      assert o.x + s.speed * o.t == 1.2 * (s.speed * s.tPlanet - s.xPlanet);
    }
  }
}
