/**
 The earlier, first-leg-only version of the Earth-frame diagram (main.py):
 Earth's worldline, the outbound leg with the axes of its frame, a single light
 ray from the origin, age markers every 2 units of proper time, each with its
 simultaneity line and its own light ray back to Earth, and the return leg as
 a bare worldline.
 */
module Script {
  import opened Lorentz
  import opened Ranges
  import opened Drawing
  import opened Order
  import EarthFrame

  /**
   The values `_main` derives and passes down. `gamma` is the Lorentz factor of
   `speed`; the colours and the leg stroke are the ones `_main` chooses.
   */
  datatype Params = Params(
    xPlanet: real, speed: real, gamma: real,
    tPlanet: real, xMax: real, tMax: real)

  const EarthColour: Colour := Colour("#0088ff", 0)
  const FirstLegColour: Colour := Colour("orange", 0)
  const SecondLegColour: Colour := Colour("#aa00aa", 0)
  const Leg: Stroke := Stroke(2, "-")

  /** The fixed step between two age markers. */
  const AgeStep: int := 2

  /** The planet distance and speed `_main` hard-codes. */
  const PlanetDistance: real := 10.0
  const TravelerSpeed: real := 0.5

  /**
   `_main`'s derivation: the planet is reached at t = x / v, and the diagram
   spans twice the planet's distance and twice its arrival time.
   */
  function Derive(xPlanet: real, speed: real, gamma: real): (p: Params)
    requires speed != 0.0
    ensures p.xPlanet == xPlanet && p.speed == speed && p.gamma == gamma
    ensures p.speed * p.tPlanet == p.xPlanet
    ensures p.xMax == 2.0 * p.xPlanet && p.tMax == 2.0 * p.tPlanet
  {
    MultiplyBack(xPlanet, speed);
    Params(xPlanet, speed, gamma, xPlanet / speed, xPlanet * 2.0, 2.0 * (xPlanet / speed))
  }

  /** The parameters of the run: d = 10 light-years at v = 0.5. */
  function MainParams(gamma: real): Params
  {
    Derive(PlanetDistance, TravelerSpeed, gamma)
  }

  /** A trip to a planet ahead, reached at t = x / v, with `gamma` the Lorentz factor of the speed. */
  predicate Trip(p: Params)
  {
    IsLorentzFactor(p.speed, p.gamma) && p.speed > 0.0 && p.xPlanet > 0.0 && p.tPlanet == p.xPlanet / p.speed
  }

  function Planet(p: Params): Event
  {
    Event(p.xPlanet, p.tPlanet)
  }

  /** The traveler's age at the planet: the planet event's time in the outbound frame. */
  function AgeAtPlanet(p: Params): real
  {
    ReferenceToPrime(Planet(p), p.speed, p.gamma).t
  }

  /** The Earth-frame event of the traveler at `age`: x' = 0, t' = age in the outbound frame. */
  function MarkerEvent(p: Params, age: real): Event
  {
    PrimeToReference(Event(0.0, age), p.speed, p.gamma)
  }

  /** The Earth event at the other end of a marker's dotted line. */
  function SimultaneousOnEarth(p: Params, e: Event): Event
  {
    Event(0.0, e.t - e.x * p.speed)
  }

  /** What `_draw_traveler_age` draws, in order; every marker sends a light ray home. */
  function TravelerAgeCommands(p: Params, age: real, colour: Colour, light: Colour,
                               travelerMarker: Option<Colour>, earthMarker: Option<Colour>): seq<Command>
  {
    var q := MarkerEvent(p, age);
    var e := SimultaneousOnEarth(p, q);
    [Line(q, e, colour, Dotted)]
    + (if travelerMarker.Some? then [Marker(q, travelerMarker.value, SquareShape)] else [])
    + (if earthMarker.Some? then [Marker(e, earthMarker.value, SquareShape)] else [])
    + [EarthFrame.RayHome(q, light)]
  }

  /** One regular marker. */
  function RegularMarker(p: Params, age: int): seq<Command>
  {
    TravelerAgeCommands(p, age as real, Darken(FirstLegColour), EarthFrame.LightColour, None, None)
  }

  /** The regular markers at the given ages, in order. */
  function Markers(p: Params, ages: seq<int>): seq<Command>
  {
    if |ages| == 0 then []
    else Markers(p, ages[..|ages| - 1]) + RegularMarker(p, ages[|ages| - 1])
  }

  /** The terminal marker at the planet, with square markers on the leg and on Earth. */
  function TerminalMarker(p: Params): seq<Command>
  {
    TravelerAgeCommands(p, AgeAtPlanet(p), Darken(FirstLegColour), EarthFrame.LightColour,
                        Some(Darken(FirstLegColour)), Some(Darken(EarthColour)))
  }

  /** The ages of the regular markers: 2, 4, ... below floor(a0). */
  function MarkerAges(p: Params): seq<int>
  {
    Range(AgeStep, Floor(AgeAtPlanet(p)), AgeStep)
  }

  /** The outbound worldline, the x' and t' axes, and the light ray from the origin. */
  function FirstLegFrame(p: Params): seq<Command>
    requires p.speed != 0.0
  {
    [ Line(EarthFrame.Origin, Event(p.xPlanet, p.xPlanet / p.speed), FirstLegColour, Leg),
      Arrow("x'", EarthFrame.Origin, Event(p.xMax, p.xMax * p.speed), Darken(FirstLegColour)),
      Arrow("t'", EarthFrame.Origin, Event(p.xPlanet * 1.2, p.tPlanet * 1.2), Darken(FirstLegColour)),
      EarthFrame.LightRay(EarthFrame.Origin, Event(p.xMax * 1.2, p.xMax * 1.2), EarthFrame.LightColour) ]
  }

  /** Everything `_draw_first_leg_explanation` draws, in order. */
  function FirstLegCommands(p: Params): seq<Command>
    requires p.speed != 0.0
  {
    FirstLegFrame(p) + Markers(p, MarkerAges(p)) + TerminalMarker(p)
  }

  /** `_draw_second_leg_explanation`: the return worldline only. */
  function SecondLegCommands(p: Params): seq<Command>
    requires p.speed != 0.0
  {
    [Line(Planet(p), Event(0.0, p.tPlanet + p.xPlanet / p.speed), SecondLegColour, Leg)]
  }

  /** Everything `_main` draws on the Earth axes, in order. */
  function ScriptCommands(p: Params): seq<Command>
    requires p.speed != 0.0
  {
    [Line(EarthFrame.Origin, Event(0.0, p.tMax), EarthColour, Leg)] + FirstLegCommands(p) + SecondLegCommands(p)
  }

  // ---------------------------------------------------------------------------
  // The drawing routines

  /** `_draw_traveler_age`. */
  method DrawTravelerAge(canvas: Canvas, p: Params, age: real, colour: Colour, light: Colour,
                         travelerMarker: Option<Colour>, earthMarker: Option<Colour>)
    requires IsLorentzFactor(p.speed, p.gamma)
    modifies canvas
    ensures canvas.commands == old(canvas.commands)
                               + TravelerAgeCommands(p, age, colour, light, travelerMarker, earthMarker)
  {
    ghost var before := canvas.commands;
    var q := PrimeToReference(Event(0.0, age), p.speed, p.gamma);
    var e := Event(0.0, q.t - q.x * p.speed);
    assert q == MarkerEvent(p, age) && e == SimultaneousOnEarth(p, q);
    canvas.DrawLine(q, e, colour, Dotted);
    ghost var drawn := [Line(q, e, colour, Dotted)];
    if travelerMarker.Some? {
      canvas.DrawMarker(q, travelerMarker.value, SquareShape);
    }
    ghost var piece := if travelerMarker.Some? then [Marker(q, travelerMarker.value, SquareShape)] else [];
    AppendThree(before, drawn, piece);
    drawn := drawn + piece;
    if earthMarker.Some? {
      canvas.DrawMarker(e, earthMarker.value, SquareShape);
    }
    piece := if earthMarker.Some? then [Marker(e, earthMarker.value, SquareShape)] else [];
    AppendThree(before, drawn, piece);
    drawn := drawn + piece;
    EarthFrame.DrawLightRay(canvas, q, Event(0.0, q.t + q.x), light);
    AppendThree(before, drawn, [EarthFrame.RayHome(q, light)]);
    assert drawn + [EarthFrame.RayHome(q, light)]
           == TravelerAgeCommands(p, age, colour, light, travelerMarker, earthMarker);
  }

  lemma MarkersAppend(p: Params, ages: seq<int>, age: int)
    ensures Markers(p, ages + [age]) == Markers(p, ages) + RegularMarker(p, age)
  {
    assert (ages + [age])[..|ages|] == ages;
  }

  /** The marker loop: ages 2, 4, ... below floor(a0). */
  method DrawMarkers(canvas: Canvas, p: Params, a0: real)
    requires IsLorentzFactor(p.speed, p.gamma) && a0 == AgeAtPlanet(p)
    modifies canvas
    ensures canvas.commands == old(canvas.commands) + Markers(p, MarkerAges(p))
  {
    var stop := Floor(a0);
    var age := AgeStep;
    ghost var done: seq<int> := [];
    while age < stop
      invariant done + Range(age, stop, AgeStep) == MarkerAges(p)
      invariant canvas.commands == old(canvas.commands) + Markers(p, done)
      decreases stop - age
    {
      RangeUnfold(age, stop, AgeStep);
      DrawTravelerAge(canvas, p, age as real, Darken(FirstLegColour), EarthFrame.LightColour, None, None);
      MarkersAppend(p, done, age);
      done := done + [age];
      age := age + AgeStep;
    }
    assert Range(age, stop, AgeStep) == [];
    assert done + [] == done;
  }

  /** `_draw_first_leg_explanation`. */
  method DrawFirstLegExplanation(canvas: Canvas, p: Params)
    requires p.speed != 0.0 && IsLorentzFactor(p.speed, p.gamma)
    modifies canvas
    ensures canvas.commands == old(canvas.commands) + FirstLegCommands(p)
  {
    ghost var before := canvas.commands;
    var leg := Line(EarthFrame.Origin, Event(p.xPlanet, p.xPlanet / p.speed), FirstLegColour, Leg);
    var xAxis := Arrow("x'", EarthFrame.Origin, Event(p.xMax, p.xMax * p.speed), Darken(FirstLegColour));
    var tAxis := Arrow("t'", EarthFrame.Origin, Event(p.xPlanet * 1.2, p.tPlanet * 1.2), Darken(FirstLegColour));
    var ray := EarthFrame.LightRay(EarthFrame.Origin, Event(p.xMax * 1.2, p.xMax * 1.2), EarthFrame.LightColour);
    ghost var frame := FirstLegFrame(p);
    assert frame[0] == leg && frame[1] == xAxis && frame[2] == tAxis && frame[3] == ray;
    assert frame == [leg, xAxis, tAxis, ray];
    canvas.DrawLine(leg.from, leg.to, leg.colour, leg.stroke);
    canvas.DrawAxis(xAxis.caption, xAxis.start, xAxis.offset, xAxis.colour);
    canvas.DrawAxis(tAxis.caption, tAxis.start, tAxis.offset, tAxis.colour);
    EarthFrame.DrawLightRay(canvas, ray.from, ray.to, ray.colour);
    assert canvas.commands == before + frame;
    var a0 := ReferenceToPrime(Event(p.xPlanet, p.tPlanet), p.speed, p.gamma).t;
    DrawMarkers(canvas, p, a0);
    DrawTravelerAge(canvas, p, a0, Darken(FirstLegColour), EarthFrame.LightColour,
                    Some(Darken(FirstLegColour)), Some(Darken(EarthColour)));
  }

  /** `_draw_second_leg_explanation`. */
  method DrawSecondLegExplanation(canvas: Canvas, p: Params)
    requires p.speed != 0.0
    modifies canvas
    ensures canvas.commands == old(canvas.commands) + SecondLegCommands(p)
  {
    canvas.DrawLine(Event(p.xPlanet, p.tPlanet), Event(0.0, p.tPlanet + p.xPlanet / p.speed), SecondLegColour, Leg);
  }

  /** `_main`: derives the parameters and draws the whole Earth-frame diagram. */
  method Run(canvas: Canvas, gamma: real)
    requires IsLorentzFactor(TravelerSpeed, gamma)
    modifies canvas
    ensures canvas.commands == old(canvas.commands) + ScriptCommands(MainParams(gamma))
  {
    var p := Derive(PlanetDistance, TravelerSpeed, gamma);
    ghost var before := canvas.commands;
    canvas.DrawLine(EarthFrame.Origin, Event(0.0, p.tMax), EarthColour, Leg);
    DrawFirstLegExplanation(canvas, p);
    DrawSecondLegExplanation(canvas, p);
  }

  // ---------------------------------------------------------------------------
  // Lemmas

  /** On a trip the planet is where the traveler is at age a0, and a0 = tPlanet / gamma. */
  lemma PlanetAtAgeAtPlanet(p: Params)
    requires Trip(p)
    ensures MarkerEvent(p, AgeAtPlanet(p)) == Planet(p)
    ensures AgeAtPlanet(p) * p.gamma == p.tPlanet
  {
    MultiplyBack(p.xPlanet, p.speed);
    RoundTrip(Planet(p), p.speed, p.gamma);
    var m := ReferenceToPrime(Planet(p), p.speed, p.gamma);
    assert m.x == p.gamma * (p.xPlanet + -p.speed * p.tPlanet);
    assert m == Event(0.0, AgeAtPlanet(p));
  }

  /**
   Every marker of age 0 to a0 is on the outbound segment t = x / v, and has
   moving-frame time `age`; its dotted line ends on Earth at an event of the
   same moving-frame time. The terminal marker is the planet event.
   */
  lemma MarkerOnFirstLeg(p: Params, age: real)
    requires Trip(p) && 0.0 <= age <= AgeAtPlanet(p)
    ensures var q := MarkerEvent(p, age);
            0.0 <= q.x <= p.xPlanet && q.t == q.x / p.speed
    ensures age == AgeAtPlanet(p) ==> MarkerEvent(p, age) == Planet(p)
    ensures ReferenceToPrime(MarkerEvent(p, age), p.speed, p.gamma) == Event(0.0, age)
    ensures SimultaneousOnEarth(p, MarkerEvent(p, age)).x == 0.0
    ensures ReferenceToPrime(SimultaneousOnEarth(p, MarkerEvent(p, age)), p.speed, p.gamma).t == age
  {
    PlanetAtAgeAtPlanet(p);
    RestPointOnSegment(age, AgeAtPlanet(p), p.speed, p.gamma);
    RoundTrip(Event(0.0, age), p.speed, p.gamma);
    var q := MarkerEvent(p, age);
    var e := SimultaneousOnEarth(p, q);
    assert e.t - q.t == p.speed * (e.x - q.x);
    SimultaneityIsSlopeV(q, e, p.speed, p.gamma);
  }

  /** The regular markers are drawn at exactly the even ages from 2 with age + 1 <= a0. */
  lemma MarkerAgesAre(p: Params, n: int)
    ensures n in MarkerAges(p) <==> 2 <= n && (n + 1) as real <= AgeAtPlanet(p) && n % 2 == 0
  {
    RangeMembership(AgeStep, Floor(AgeAtPlanet(p)), AgeStep, n);
    BelowFloor(n, AgeAtPlanet(p));
    ShiftByStep(n - AgeStep, AgeStep);
  }

  /** Every regular marker age gets its light ray back to Earth, of slope -1. */
  lemma {:induction false} EveryMarkerHasRay(p: Params, ages: seq<int>, age: int)
    requires age in ages
    ensures var r := EarthFrame.RayHome(MarkerEvent(p, age as real), EarthFrame.LightColour);
            r in Markers(p, ages) && r.to.x == 0.0 && r.to.t - r.from.t == r.from.x - r.to.x
  {
    var init, last := ages[..|ages| - 1], ages[|ages| - 1];
    assert ages == init + [last];
    assert Markers(p, ages) == Markers(p, init) + RegularMarker(p, last);
    if age != last {
      assert age in init;
      EveryMarkerHasRay(p, init, age);
    } else {
      var r := EarthFrame.RayHome(MarkerEvent(p, age as real), EarthFrame.LightColour);
      assert RegularMarker(p, last)[|RegularMarker(p, last)| - 1] == r;
    }
  }

  /**
   The regular markers come in pairs, one per age and in the order of the
   ages: the dotted line from the marker to its simultaneous Earth event, then
   its light ray home, and nothing else.
   */
  lemma {:induction false} MarkersArePairs(p: Params, ages: seq<int>)
    ensures |Markers(p, ages)| == 2 * |ages|
    ensures forall k :: 0 <= k < |ages| ==>
              var q := MarkerEvent(p, ages[k] as real);
              Markers(p, ages)[2 * k] == Line(q, SimultaneousOnEarth(p, q), Darken(FirstLegColour), Dotted)
              && Markers(p, ages)[2 * k + 1] == EarthFrame.RayHome(q, EarthFrame.LightColour)
  {
    if |ages| > 0 {
      var init, last := ages[..|ages| - 1], ages[|ages| - 1];
      MarkersArePairs(p, init);
      var m, prev, pair := Markers(p, ages), Markers(p, init), RegularMarker(p, last);
      assert m == prev + pair;
      var q := MarkerEvent(p, last as real);
      assert pair == [Line(q, SimultaneousOnEarth(p, q), Darken(FirstLegColour), Dotted),
                      EarthFrame.RayHome(q, EarthFrame.LightColour)];
      forall k | 0 <= k < |ages|
        ensures var q := MarkerEvent(p, ages[k] as real);
                m[2 * k] == Line(q, SimultaneousOnEarth(p, q), Darken(FirstLegColour), Dotted)
                && m[2 * k + 1] == EarthFrame.RayHome(q, EarthFrame.LightColour)
      {
        if k < |init| {
          assert ages[k] == init[k];
          assert m[2 * k] == prev[2 * k] && m[2 * k + 1] == prev[2 * k + 1];
        } else {
          assert ages[k] == last;
          assert m[2 * k] == pair[0] && m[2 * k + 1] == pair[1];
        }
      }
    }
  }

  /**
   The picture of a trip: the outbound leg runs from the origin to the planet,
   the x' axis is a line of constant t', the t' axis runs along x' = 0, the
   light ray from the origin is on x = t, the terminal marker gets a light ray
   too, and the return leg runs from the planet back to Earth at 2 tPlanet.
   */
  lemma TripPicture(p: Params)
    requires Trip(p)
    ensures var f := FirstLegFrame(p);
            f[0].Line? && f[0].from == EarthFrame.Origin && f[0].to == Planet(p)
            && SameMovingTime(EarthFrame.Origin, ArrowTip(f[1]), p.speed, p.gamma)
            && ReferenceToPrime(ArrowTip(f[2]), p.speed, p.gamma).x == 0.0
            && f[3].Line? && f[3].from == EarthFrame.Origin && f[3].to.x == f[3].to.t
    ensures EarthFrame.RayHome(Planet(p), EarthFrame.LightColour) in TerminalMarker(p)
    ensures SecondLegCommands(p)[0].from == Planet(p)
    ensures SecondLegCommands(p)[0].to == Event(0.0, 2.0 * p.tPlanet)
  {
    var f := FirstLegFrame(p);
    MultiplyBack(p.xPlanet, p.speed);
    PlanetAtAgeAtPlanet(p);
    SimultaneityIsSlopeV(EarthFrame.Origin, ArrowTip(f[1]), p.speed, p.gamma);
    var u := ArrowTip(f[2]);
    assert u == Event(p.xPlanet * 1.2, p.tPlanet * 1.2);
    assert u.x + -p.speed * u.t == 1.2 * (p.xPlanet - p.speed * p.tPlanet);
    var t := TerminalMarker(p);
    assert t[|t| - 1] == EarthFrame.RayHome(Planet(p), EarthFrame.LightColour);
  }

  lemma SquareBelow(a: real, b: real)
    requires 0.0 < a <= b
    ensures a * a <= b * b
  {
    MulLeft(a, a, b);
    MulLeft(b, a, b);
  }

  /**
   The run itself: d = 10 and v = 0.5 give tPlanet = 20, xMax = 20,
   tMax = 40 and a0 = 15 gamma, between 17 and 18 (a0^2 = 300); markers are
   drawn at ages 2, 4, ..., 16, and the Earth event simultaneous with the
   arrival at the planet (10, 20) is (0, 15).
   */
  lemma MainRun(gamma: real)
    requires IsLorentzFactor(TravelerSpeed, gamma)
    ensures var p := MainParams(gamma);
            p.tPlanet == 20.0 && p.xMax == 20.0 && p.tMax == 40.0
            && AgeAtPlanet(p) == 15.0 * gamma
            && 17.0 < AgeAtPlanet(p) < 18.0
            && MarkerAges(p) == [2, 4, 6, 8, 10, 12, 14, 16]
            && SimultaneousOnEarth(p, MarkerEvent(p, AgeAtPlanet(p))) == Event(0.0, 15.0)
  {
    var p := MainParams(gamma);
    assert p.tPlanet == 20.0;
    var a0 := AgeAtPlanet(p);
    assert a0 == gamma * (20.0 + -0.5 * 10.0);
    assert gamma * gamma == 4.0 / 3.0;
    assert a0 * a0 == 300.0;
    if a0 <= 17.0 {
      SquareBelow(a0, 17.0);
    }
    if a0 >= 18.0 {
      SquareBelow(18.0, a0);
    }
    assert Floor(a0) == 17;
    assert MarkerAges(p) == Range(2, 17, 2);
    RangeUnfold(2, 17, 2);
    RangeUnfold(4, 17, 2);
    RangeUnfold(6, 17, 2);
    RangeUnfold(8, 17, 2);
    RangeUnfold(10, 17, 2);
    RangeUnfold(12, 17, 2);
    RangeUnfold(14, 17, 2);
    RangeUnfold(16, 17, 2);
    assert Range(18, 17, 2) == [];
    PlanetAtAgeAtPlanet(p);
  }
}
