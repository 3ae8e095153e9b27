/**
 The Lorentz boost between the Earth (reference) frame and a frame moving at
 constant speed `v` along x, in units where the speed of light is 1.

 Dafny has no square root, so the Lorentz factor gamma = 1 / sqrt(1 - v^2) is
 passed around as a real number tied to `v` by `IsLorentzFactor`; the one place
 where the source computes it (`LorentzFactor`) takes the square root's value as
 a parameter.
 */
module Lorentz {
  import opened Order

  /** A spacetime event: position `x` (light-time units) and time `t`. */
  datatype Event = Event(x: real, t: real)

  /** Why evaluating 1 / sqrt(1 - v**2) fails. */
  datatype MathError =
    | NegativeSqrt   // math.sqrt of a negative number: Python's "math domain error"
    | ZeroDivision   // 1 / 0.0

  datatype Outcome<T> = Ok(value: T) | Fail(error: MathError)

  /** `gamma` is the Lorentz factor of the speed `v`. */
  predicate IsLorentzFactor(v: real, gamma: real)
  {
    -1.0 < v < 1.0 && gamma > 0.0 && gamma * gamma * (1.0 - v * v) == 1.0
  }

  /** `root` is what math.sqrt returns for `arg`; for a negative `arg` it raises, and `root` is unused. */
  predicate IsSqrt(arg: real, root: real)
  {
    root >= 0.0 && (arg >= 0.0 ==> root * root == arg)
  }

  /** The squared interval t^2 - x^2 of an event as seen from the origin. */
  function Interval(e: Event): real
  {
    e.t * e.t - e.x * e.x
  }

  /** Two events happen at the same time in the frame moving at `v`. */
  predicate SameMovingTime(p: Event, q: Event, v: real, gamma: real)
  {
    IsLorentzFactor(v, gamma) && ReferenceToPrime(p, v, gamma).t == ReferenceToPrime(q, v, gamma).t
  }

  lemma SpeedBelowLight(v: real)
    ensures v * v < 1.0 <==> -1.0 < v < 1.0
    ensures v * v == 1.0 <==> (v == 1.0 || v == -1.0)
  {
    if v >= 1.0 {
      assert v * v >= 1.0 * v;
    } else if v <= -1.0 {
      assert v * v >= -1.0 * v;
    } else if v >= 0.0 {
      assert v * v <= 1.0 * v;
    } else {
      assert v * v <= -1.0 * v;
    }
  }

  /**
   gamma = 1 / sqrt(1 - v**2) as the source evaluates it: the square root of a
   negative number raises for |v| > 1 and the division by zero raises for |v| = 1.
   */
  function LorentzFactor(v: real, root: real): (r: Outcome<real>)
    requires IsSqrt(1.0 - v * v, root)
    ensures r.Ok? <==> -1.0 < v < 1.0
    ensures r.Ok? ==> IsLorentzFactor(v, r.value)
    ensures r.Fail? ==> (r.error == ZeroDivision <==> (v == 1.0 || v == -1.0))
  {
    SpeedBelowLight(v);
    if 1.0 - v * v < 0.0 then Fail(NegativeSqrt)
    else if root == 0.0 then Fail(ZeroDivision)
    else
      var gamma := 1.0 / root;
      assert gamma * root == 1.0;
      assert gamma * gamma * (1.0 - v * v) == (gamma * root) * (gamma * root);
      Ok(gamma)
  }

  lemma LorentzFactorUnique(v: real, g1: real, g2: real)
    requires IsLorentzFactor(v, g1) && IsLorentzFactor(v, g2)
    ensures g1 == g2
  {
    var d := 1.0 - v * v;
    SpeedBelowLight(v);
    assert (g1 * g1 - g2 * g2) * d == 0.0;
    assert g1 * g1 == g2 * g2;
    assert (g1 - g2) * (g1 + g2) == 0.0;
  }

  /** gamma depends on v only through v^2, so a leg and its reverse share it. */
  lemma LorentzFactorOfReverse(v: real, gamma: real)
    requires IsLorentzFactor(v, gamma)
    ensures IsLorentzFactor(-v, gamma)
  {
    assert (-v) * (-v) == v * v;
  }

  lemma SquarePositive(a: real)
    requires a != 0.0
    ensures a * a > 0.0
  {
  }

  lemma RootAboveOne(g: real)
    requires g > 0.0 && g * g > 1.0
    ensures g > 1.0
  {
  }

  lemma UnitRoot(g: real)
    requires g > 0.0 && g * g == 1.0
    ensures g == 1.0
  {
  }

  /** A moving frame's factor exceeds 1: gamma^2 = 1 + (gamma v)^2. */
  lemma LorentzFactorAboveOne(v: real, gamma: real)
    requires IsLorentzFactor(v, gamma) && v != 0.0
    ensures gamma > 1.0
  {
    var a := gamma * v;
    assert a != 0.0;
    SquarePositive(a);
    assert gamma * gamma == 1.0 + a * a;
    RootAboveOne(gamma);
  }

  /** gamma is at least 1, and exactly 1 only at rest. */
  lemma LorentzFactorAtLeastOne(v: real, gamma: real)
    requires IsLorentzFactor(v, gamma)
    ensures gamma >= 1.0
    ensures gamma == 1.0 <==> v == 0.0
  {
    if v != 0.0 {
      LorentzFactorAboveOne(v, gamma);
    } else {
      assert gamma * gamma == 1.0;
      UnitRoot(gamma);
    }
  }

  /** Maps an event (x', t') of the moving frame to the Earth frame. */
  function PrimeToReference(e: Event, v: real, gamma: real): Event
  {
    Event(gamma * (e.x + v * e.t), gamma * (e.t + v * e.x))
  }

  /**
   Maps an Earth-frame event to the frame moving at `v`: the same boost with
   `-v` and the same gamma.
   */
  function ReferenceToPrime(e: Event, v: real, gamma: real): Event
  {
    PrimeToReference(e, -v, gamma)
  }

  /** The boost preserves the interval t^2 - x^2. */
  lemma BoostPreservesInterval(e: Event, v: real, gamma: real)
    requires IsLorentzFactor(v, gamma)
    ensures Interval(PrimeToReference(e, v, gamma)) == Interval(e)
  {
    var x, t := e.x, e.t;
    var bx, bt := x + v * t, t + v * x;
    calc {
      (gamma * bt) * (gamma * bt) - (gamma * bx) * (gamma * bx);
      gamma * gamma * (bt * bt - bx * bx);
      { assert bt * bt - bx * bx == (1.0 - v * v) * (t * t - x * x); }
      gamma * gamma * ((1.0 - v * v) * (t * t - x * x));
      (gamma * gamma * (1.0 - v * v)) * (t * t - x * x);
      t * t - x * x;
    }
  }

  /** Boosting by `v` and then by `-v` with the same gamma gives back the event. */
  lemma BoostUndoneByReverse(e: Event, v: real, gamma: real)
    requires IsLorentzFactor(v, gamma)
    ensures IsLorentzFactor(-v, gamma)
    ensures PrimeToReference(PrimeToReference(e, v, gamma), -v, gamma) == e
  {
    LorentzFactorOfReverse(v, gamma);
    var b := PrimeToReference(e, v, gamma);
    var k := gamma * gamma * (1.0 - v * v);
    calc {
      gamma * (b.x + -v * b.t);
      gamma * (gamma * (e.x + v * e.t) - v * (gamma * (e.t + v * e.x)));
      k * e.x;
      e.x;
    }
    calc {
      gamma * (b.t + -v * b.x);
      gamma * (gamma * (e.t + v * e.x) - v * (gamma * (e.x + v * e.t)));
      k * e.t;
      e.t;
    }
  }

  /** The two transforms are inverse to each other, in both orders. */
  lemma RoundTrip(e: Event, v: real, gamma: real)
    requires IsLorentzFactor(v, gamma)
    ensures ReferenceToPrime(PrimeToReference(e, v, gamma), v, gamma) == e
    ensures PrimeToReference(ReferenceToPrime(e, v, gamma), v, gamma) == e
  {
    BoostUndoneByReverse(e, v, gamma);
    BoostUndoneByReverse(e, -v, gamma);
    assert -(-v) == v;
  }

  /** At rest the Lorentz factor is 1 and both transforms are the identity. */
  lemma IdentityAtRest(e: Event, gamma: real)
    requires IsLorentzFactor(0.0, gamma)
    ensures gamma == 1.0
    ensures PrimeToReference(e, 0.0, gamma) == e
    ensures ReferenceToPrime(e, 0.0, gamma) == e
  {
    LorentzFactorAtLeastOne(0.0, gamma);
  }

  /**
   The moving observer's own position x' = 0 at time tau is, in the Earth frame,
   on the line x = v t, at time gamma * tau.
   */
  lemma RestPointOnWorldline(tau: real, v: real, gamma: real)
    requires IsLorentzFactor(v, gamma)
    ensures PrimeToReference(Event(0.0, tau), v, gamma).x == v * PrimeToReference(Event(0.0, tau), v, gamma).t
    ensures PrimeToReference(Event(0.0, tau), v, gamma).t == gamma * tau
  {
    assert gamma * (0.0 + v * tau) == v * (gamma * (tau + v * 0.0));
  }

  /** Events on a light ray through the origin stay on it. */
  lemma LightConePreserved(e: Event, v: real, gamma: real)
    requires IsLorentzFactor(v, gamma)
    ensures e.x == e.t ==> PrimeToReference(e, v, gamma).x == PrimeToReference(e, v, gamma).t
    ensures e.x == -e.t ==> PrimeToReference(e, v, gamma).x == -PrimeToReference(e, v, gamma).t
  {
  }

  /**
   Two Earth-frame events are simultaneous in the frame moving at `v` exactly
   when the line joining them has slope v: dt = v dx.
   */
  lemma SimultaneityIsSlopeV(p: Event, q: Event, v: real, gamma: real)
    requires IsLorentzFactor(v, gamma)
    ensures SameMovingTime(p, q, v, gamma) <==> q.t - p.t == v * (q.x - p.x)
  {
    var tp, tq := ReferenceToPrime(p, v, gamma).t, ReferenceToPrime(q, v, gamma).t;
    assert tp == gamma * (p.t - v * p.x);
    assert tq == gamma * (q.t - v * q.x);
    assert tq - tp == gamma * ((q.t - p.t) - v * (q.x - p.x));
    if tq == tp {
      assert gamma * ((q.t - p.t) - v * (q.x - p.x)) == 0.0;
    }
  }

  /** The transform to the moving frame is linear: it commutes with adding a displacement. */
  lemma ReferenceToPrimeAdditive(a: Event, b: Event, v: real, gamma: real)
    requires IsLorentzFactor(v, gamma)
    ensures ReferenceToPrime(Event(a.x + b.x, a.t + b.t), v, gamma)
         == Event(ReferenceToPrime(a, v, gamma).x + ReferenceToPrime(b, v, gamma).x,
                  ReferenceToPrime(a, v, gamma).t + ReferenceToPrime(b, v, gamma).t)
  {
    LorentzFactorOfReverse(v, gamma);
    var s := Event(a.x + b.x, a.t + b.t);
    assert gamma * (s.x + -v * s.t) == gamma * (a.x + -v * a.t) + gamma * (b.x + -v * b.t);
    assert gamma * (s.t + -v * s.x) == gamma * (a.t + -v * a.x) + gamma * (b.t + -v * b.x);
  }

  /**
   Between proper times 0 and `tau1` the moving observer stays on the segment
   t = x / v from the origin to its event at `tau1`, moving forward in x.
   */
  lemma RestPointOnSegment(tau: real, tau1: real, v: real, gamma: real)
    requires IsLorentzFactor(v, gamma) && v > 0.0 && 0.0 <= tau <= tau1
    ensures var p, q := PrimeToReference(Event(0.0, tau), v, gamma), PrimeToReference(Event(0.0, tau1), v, gamma);
            0.0 <= p.x <= q.x && p.t == p.x / v && 0.0 <= p.t <= q.t
  {
    var p, q := PrimeToReference(Event(0.0, tau), v, gamma), PrimeToReference(Event(0.0, tau1), v, gamma);
    RestPointOnWorldline(tau, v, gamma);
    RestPointOnWorldline(tau1, v, gamma);
    assert p.t == gamma * tau && q.t == gamma * tau1;
    assert 0.0 <= p.t <= q.t by {
      assert gamma * 0.0 <= gamma * tau <= gamma * tau1 by { MulLeft(gamma, 0.0, tau); MulLeft(gamma, tau, tau1); }
    }
    MulLeft(v, 0.0, p.t);
    MulLeft(v, p.t, q.t);
    assert p.t == p.x / v;
  }

  /**
   The whole of lorentz_transform_prime_to_reference, the square root included:
   it fails exactly when |v| >= 1 and otherwise boosts by the Lorentz factor.
   */
  function PrimeToReferenceChecked(x2: real, t2: real, v: real, root: real): (r: Outcome<Event>)
    requires IsSqrt(1.0 - v * v, root)
    ensures r.Ok? <==> -1.0 < v < 1.0
    ensures r.Ok? ==> exists gamma :: IsLorentzFactor(v, gamma) && ReferenceToPrime(r.value, v, gamma) == Event(x2, t2)
  {
    match LorentzFactor(v, root)
    case Fail(err) => Fail(err)
    case Ok(gamma) =>
      var r := PrimeToReference(Event(x2, t2), v, gamma);
      RoundTrip(Event(x2, t2), v, gamma);
      Ok(r)
  }
}
