/** The display generators of cycloidal_Gear_generator_V1-5.py: pin_ring,
    inner_pins, inner_circles, cycloid_disk, camshaft, eccentric_camshaft and
    outer_ring. The first six are the same code in
    cycloidal_Gear_generator_V1-3.py. Every generator is a function of the
    mechanism's parameters and of the input-shaft phase phi; loops that append
    one curve per pin are methods, vectorised numpy expressions are functions. */
module Generators {
  import opened RealMath

  /** Samples of every pin, hole and shaft outline. */
  const CircleSamples: nat := 200
  /** Samples per lobe of the displayed disk profile. */
  const DiskPointsPerLobe: nat := 1500
  /** Samples per pin of the housing's inner profile. */
  const HousingPointsPerPin: nat := 100

  /** The parameter dictionary the exporters read (its animation speed is
      read only by the control panel). */
  datatype Params = Params(
    eccentricity: real,
    numExternalPins: nat,
    numOutputPins: nat,
    ringDiameter: real,
    pinDiameter: real,
    outputDiskDiameter: real,
    outputPinDiameter: real,
    camshaftDiameter: real,
    tolerance: real,
    showOuterRing: bool,
    outerRingWidth: real)

  // ---------------------------------------------------------------- shared pieces

  /** np.linspace(0, 2π, 200): the parameter of every 200-sample outline. */
  function CircleAngles(m: Math): (ts: seq<real>)
    ensures |ts| == CircleSamples
  {
    Linspace(0.0, 2.0 * m.pi, CircleSamples)
  }

  /** 2πi/n: the angle of the i-th of n evenly spaced pins. */
  function SpacedAngle(m: Math, i: int, n: nat): real
    requires n > 0
  {
    2.0 * m.pi * (i as real) / (n as real)
  }

  /** (e cos phi, e sin phi): where the eccentric puts the disk centre. */
  function Eccentric(m: Math, e: real, phi: real): Point
  {
    Polar(m, e, phi)
  }

  /** The disk's rotation -phi/L for L = numExternalPins - 1 lobes. */
  function DiskRotation(numExternalPins: nat, phi: real): real
    requires numExternalPins != 1
  {
    -phi / ((numExternalPins - 1) as real)
  }

  /** A sample of a pin outline as pin_ring and inner_pins trace it:
      (r sin t, r cos t) about `centre`. */
  function PinOutlinePoint(m: Math, centre: Point, r: real, t: real): Point
  {
    Point(r * m.sin(t) + centre.x, r * m.cos(t) + centre.y)
  }

  /** A 200-sample circle traced as (r cos t, r sin t) about `centre`. */
  function CircleCurve(m: Math, centre: Point, r: real): (c: Curve)
    ensures |c| == CircleSamples
  {
    var ts := CircleAngles(m);
    seq(CircleSamples, k requires 0 <= k < CircleSamples => Add(Polar(m, r, ts[k]), centre))
  }

  // ---------------------------------------------------------------- clearances

  /** Offset of the disk profile from the trochoid: pin radius plus tolerance. */
  function EffectivePinRadius(pinDiameter: real, tolerance: real): real
  {
    pinDiameter / 2.0 + tolerance
  }

  /** Radius of an output-pin hole: pin radius, plus the eccentricity the pin
      orbits by, plus the tolerance. */
  function HoleRadius(outputPinDiameter: real, eccentricity: real, tolerance: real): real
  {
    outputPinDiameter / 2.0 + eccentricity + tolerance
  }

  /** Diameter of the camshaft bore in the disk. */
  function CamHoleDiameter(camshaftDiameter: real, tolerance: real): real
  {
    camshaftDiameter + 2.0 * tolerance
  }

  /** Radius of the eccentric shaft: small enough to orbit by e inside the bore. */
  function ShaftRadius(camshaftDiameter: real, eccentricity: real): real
  {
    (camshaftDiameter - 2.0 * eccentricity) / 2.0
  }

  /** More tolerance makes every hole and the bore strictly larger and moves
      the disk profile strictly further from the trochoid; the eccentric
      shaft does not depend on it. */
  lemma ClearanceMonotone(p: Params, tol1: real, tol2: real)
    requires tol1 < tol2
    ensures HoleRadius(p.outputPinDiameter, p.eccentricity, tol1) < HoleRadius(p.outputPinDiameter, p.eccentricity, tol2)
    ensures CamHoleDiameter(p.camshaftDiameter, tol1) / 2.0 < CamHoleDiameter(p.camshaftDiameter, tol2) / 2.0
    ensures CamHoleDiameter(p.camshaftDiameter, tol1) / 2.0 == p.camshaftDiameter / 2.0 + tol1
    ensures EffectivePinRadius(p.pinDiameter, tol1) < EffectivePinRadius(p.pinDiameter, tol2)
    ensures HoleRadius(p.outputPinDiameter, p.eccentricity, tol2) - HoleRadius(p.outputPinDiameter, p.eccentricity, tol1) == tol2 - tol1
  {
  }

  // ---------------------------------------------------------------- pin_ring

  /** Centre of external pin i: on the ring of diameter `ringDiameter`. */
  function PinCentre(m: Math, numPins: nat, ringDiameter: real, i: int): Point
    requires numPins > 0
  {
    Polar(m, ringDiameter / 2.0, SpacedAngle(m, i, numPins))
  }

  /** Outline of external pin i, as the body of pin_ring's loop computes it. */
  function PinCurve(m: Math, numPins: nat, ringDiameter: real, pinDiameter: real, i: nat): (c: Curve)
    requires i < numPins
    ensures |c| == CircleSamples
  {
    var centre := PinCentre(m, numPins, ringDiameter, i);
    var ts := CircleAngles(m);
    seq(CircleSamples, k requires 0 <= k < CircleSamples => PinOutlinePoint(m, centre, pinDiameter / 2.0, ts[k]))
  }

  /** The list pin_ring returns. */
  function PinRingCurves(m: Math, numPins: nat, ringDiameter: real, pinDiameter: real): (pins: seq<Curve>)
    ensures |pins| == numPins
  {
    seq(numPins, i requires 0 <= i < numPins => PinCurve(m, numPins, ringDiameter, pinDiameter, i))
  }

  /** pin_ring: one outline per external pin, appended in pin order. */
  method PinRing(m: Math, numPins: nat, ringDiameter: real, pinDiameter: real) returns (pins: seq<Curve>)
    ensures pins == PinRingCurves(m, numPins, ringDiameter, pinDiameter)
  {
    pins := [];
    var i := 0;
    while i < numPins
      invariant 0 <= i <= numPins
      invariant pins == PinRingCurves(m, numPins, ringDiameter, pinDiameter)[..i]
    {
      pins := pins + [PinCurve(m, numPins, ringDiameter, pinDiameter, i)];
      i := i + 1;
    }
  }

  lemma PinOutlineOnCircle(m: Math, centre: Point, r: real, t: real)
    requires Valid(m)
    ensures Dist2(PinOutlinePoint(m, centre, r, t), centre) == r * r
  {
    var s, c := m.sin(t), m.cos(t);
    Unit(m, t);
    calc {
      Dist2(PinOutlinePoint(m, centre, r, t), centre);
      (r * s) * (r * s) + (r * c) * (r * c);
      r * r * (c * c + s * s);
    }
  }

  lemma CircleCurveOnCircle(m: Math, centre: Point, r: real)
    requires Valid(m)
    ensures OnCircle(CircleCurve(m, centre, r), centre, r)
  {
    var c := CircleCurve(m, centre, r);
    var ts := CircleAngles(m);
    forall k | 0 <= k < |c|
      ensures Dist2(c[k], centre) == r * r
    {
      assert Sub(c[k], centre) == Polar(m, r, ts[k]);
      PolarNorm(m, r, ts[k]);
    }
  }

  /** The outline parameter runs from 0 to 2π inclusive. */
  lemma CircleAnglesEnds(m: Math)
    requires Valid(m)
    ensures CircleAngles(m)[0] == 0.0
    ensures CircleAngles(m)[CircleSamples - 1] == 2.0 * m.pi
  {
    LinspaceLast(0.0, 2.0 * m.pi, CircleSamples);
  }

  /** A circle sampled over [0, 2π] ends where it starts. */
  lemma CircleCurveClosed(m: Math, centre: Point, r: real)
    requires Valid(m) && Periodic(m)
    ensures Closed(CircleCurve(m, centre, r))
  {
    CircleAnglesEnds(m);
    ZeroTurn(m);
  }

  /** Outline i of pin_ring is a circle of radius pinDiameter/2 about a centre
      at distance ringDiameter/2 from the origin, and it ends where it starts. */
  lemma PinCurveGeometry(m: Math, numPins: nat, ringDiameter: real, pinDiameter: real, i: nat)
    requires Valid(m) && Periodic(m) && i < numPins
    ensures OnCircle(PinCurve(m, numPins, ringDiameter, pinDiameter, i), PinCentre(m, numPins, ringDiameter, i), pinDiameter / 2.0)
    ensures Norm2(PinCentre(m, numPins, ringDiameter, i)) == (ringDiameter / 2.0) * (ringDiameter / 2.0)
    ensures Closed(PinCurve(m, numPins, ringDiameter, pinDiameter, i))
  {
    PinCurveOnCircle(m, numPins, ringDiameter, pinDiameter, i);
    PolarNorm(m, ringDiameter / 2.0, SpacedAngle(m, i, numPins));
    PinCurveClosed(m, numPins, ringDiameter, pinDiameter, i);
  }

  lemma PinCurveOnCircle(m: Math, numPins: nat, ringDiameter: real, pinDiameter: real, i: nat)
    requires Valid(m) && i < numPins
    ensures OnCircle(PinCurve(m, numPins, ringDiameter, pinDiameter, i), PinCentre(m, numPins, ringDiameter, i), pinDiameter / 2.0)
  {
    var c := PinCurve(m, numPins, ringDiameter, pinDiameter, i);
    var centre := PinCentre(m, numPins, ringDiameter, i);
    var ts := CircleAngles(m);
    forall k | 0 <= k < CircleSamples
      ensures Dist2(c[k], centre) == (pinDiameter / 2.0) * (pinDiameter / 2.0)
    {
      PinOutlineOnCircle(m, centre, pinDiameter / 2.0, ts[k]);
    }
  }

  lemma PinCurveClosed(m: Math, numPins: nat, ringDiameter: real, pinDiameter: real, i: nat)
    requires Valid(m) && Periodic(m) && i < numPins
    ensures Closed(PinCurve(m, numPins, ringDiameter, pinDiameter, i))
  {
    var c := PinCurve(m, numPins, ringDiameter, pinDiameter, i);
    var centre := PinCentre(m, numPins, ringDiameter, i);
    var ts := CircleAngles(m);
    CircleAnglesEnds(m);
    PinOutlineTurn(m, centre, pinDiameter / 2.0);
    assert c[0] == PinOutlinePoint(m, centre, pinDiameter / 2.0, 0.0);
    assert c[CircleSamples - 1] == PinOutlinePoint(m, centre, pinDiameter / 2.0, 2.0 * m.pi);
  }

  lemma PinOutlineTurn(m: Math, centre: Point, r: real)
    requires Periodic(m)
    ensures PinOutlinePoint(m, centre, r, 2.0 * m.pi) == PinOutlinePoint(m, centre, r, 0.0)
  {
    ZeroTurn(m);
    var s1, s0 := m.sin(2.0 * m.pi), m.sin(0.0);
    var c1, c0 := m.cos(2.0 * m.pi), m.cos(0.0);
    assert r * s1 + centre.x == r * s0 + centre.x;
    assert r * c1 + centre.y == r * c0 + centre.y;
    assert PinOutlinePoint(m, centre, r, 2.0 * m.pi) == Point(r * s1 + centre.x, r * c1 + centre.y);
    assert PinOutlinePoint(m, centre, r, 0.0) == Point(r * s0 + centre.x, r * c0 + centre.y);
  }

  /** pin_ring yields numPins outlines of 200 samples; outline i is a circle
      of radius pinDiameter/2 about a centre at distance ringDiameter/2 from
      the origin at angle 2πi/numPins, and it ends where it starts. */
  lemma PinRingGeometry(m: Math, numPins: nat, ringDiameter: real, pinDiameter: real)
    requires Valid(m) && Periodic(m)
    ensures |PinRingCurves(m, numPins, ringDiameter, pinDiameter)| == numPins
    ensures forall i :: 0 <= i < numPins ==>
      && |PinRingCurves(m, numPins, ringDiameter, pinDiameter)[i]| == CircleSamples
      && OnCircle(PinRingCurves(m, numPins, ringDiameter, pinDiameter)[i], PinCentre(m, numPins, ringDiameter, i), pinDiameter / 2.0)
      && Norm2(PinCentre(m, numPins, ringDiameter, i)) == (ringDiameter / 2.0) * (ringDiameter / 2.0)
      && Closed(PinRingCurves(m, numPins, ringDiameter, pinDiameter)[i])
  {
    forall i | 0 <= i < numPins
      ensures |PinRingCurves(m, numPins, ringDiameter, pinDiameter)[i]| == CircleSamples
      ensures OnCircle(PinRingCurves(m, numPins, ringDiameter, pinDiameter)[i], PinCentre(m, numPins, ringDiameter, i), pinDiameter / 2.0)
      ensures Norm2(PinCentre(m, numPins, ringDiameter, i)) == (ringDiameter / 2.0) * (ringDiameter / 2.0)
      ensures Closed(PinRingCurves(m, numPins, ringDiameter, pinDiameter)[i])
    {
      PinCurveGeometry(m, numPins, ringDiameter, pinDiameter, i);
    }
  }

  /** Consecutive pins are exactly 2π/n apart. */
  lemma SpacedAngleStep(m: Math, i: int, n: nat)
    requires n > 0
    ensures SpacedAngle(m, i + 1, n) - SpacedAngle(m, i, n) == 2.0 * m.pi / (n as real)
  {
  }

  // ---------------------------------------------------------------- inner_pins and inner_circles

  /** Output pin i: an outline of radius `pinRadius` about the point at
      `diskRadius` and angle 2πi/n, rotated with the disk by -phi/L. */
  function OutputPinCurve(m: Math, n: nat, numExternalPins: nat, pinRadius: real, diskRadius: real, phi: real, i: nat): (c: Curve)
    requires i < n && numExternalPins != 1
    ensures |c| == CircleSamples
  {
    var seat := Polar(m, diskRadius, SpacedAngle(m, i, n));
    var rot := DiskRotation(numExternalPins, phi);
    var ts := CircleAngles(m);
    seq(CircleSamples, k requires 0 <= k < CircleSamples => Rotate(m, PinOutlinePoint(m, seat, pinRadius, ts[k]), rot))
  }

  function OutputPinCurves(m: Math, n: nat, numExternalPins: nat, pinRadius: real, diskRadius: real, phi: real): (pins: seq<Curve>)
    requires numExternalPins != 1 || n == 0
    ensures |pins| == n
  {
    seq(n, i requires 0 <= i < n => OutputPinCurve(m, n, numExternalPins, pinRadius, diskRadius, phi, i))
  }

  /** Hole i in the disk: a circle of radius `holeRadius` about the same seat
      as output pin i, rotated with the disk and carried by the eccentric. */
  function HoleCurve(m: Math, e: real, n: nat, numExternalPins: nat, holeRadius: real, diskRadius: real, phi: real, i: nat): (c: Curve)
    requires i < n && numExternalPins != 1
    ensures |c| == CircleSamples
  {
    var seat := Polar(m, diskRadius, SpacedAngle(m, i, n));
    var rot := DiskRotation(numExternalPins, phi);
    var ts := CircleAngles(m);
    seq(CircleSamples, k requires 0 <= k < CircleSamples =>
      Add(Rotate(m, Add(Polar(m, holeRadius, ts[k]), seat), rot), Eccentric(m, e, phi)))
  }

  function HoleCurves(m: Math, e: real, n: nat, numExternalPins: nat, holeRadius: real, diskRadius: real, phi: real): (holes: seq<Curve>)
    requires numExternalPins != 1 || n == 0
    ensures |holes| == n
  {
    seq(n, i requires 0 <= i < n => HoleCurve(m, e, n, numExternalPins, holeRadius, diskRadius, phi, i))
  }

  /** The loop of inner_pins, on radii. */
  method OutputPins(m: Math, n: nat, numExternalPins: nat, pinRadius: real, diskRadius: real, phi: real) returns (pins: seq<Curve>)
    requires numExternalPins != 1 || n == 0
    ensures pins == OutputPinCurves(m, n, numExternalPins, pinRadius, diskRadius, phi)
  {
    pins := [];
    var i := 0;
    while i < n
      invariant 0 <= i <= n
      invariant pins == OutputPinCurves(m, n, numExternalPins, pinRadius, diskRadius, phi)[..i]
    {
      pins := pins + [OutputPinCurve(m, n, numExternalPins, pinRadius, diskRadius, phi, i)];
      i := i + 1;
    }
  }

  /** The loop of inner_circles, on radii. */
  method Holes(m: Math, e: real, n: nat, numExternalPins: nat, holeRadius: real, diskRadius: real, phi: real) returns (holes: seq<Curve>)
    requires numExternalPins != 1 || n == 0
    ensures holes == HoleCurves(m, e, n, numExternalPins, holeRadius, diskRadius, phi)
  {
    holes := [];
    var i := 0;
    while i < n
      invariant 0 <= i <= n
      invariant holes == HoleCurves(m, e, n, numExternalPins, holeRadius, diskRadius, phi)[..i]
    {
      holes := holes + [HoleCurve(m, e, n, numExternalPins, holeRadius, diskRadius, phi, i)];
      i := i + 1;
    }
  }

  /** inner_pins: the diameters are halved into radii. */
  method InnerPins(m: Math, numOutputPins: nat, numExternalPins: nat, outputPinDiameter: real, outputDiskDiameter: real, phi: real)
    returns (pins: seq<Curve>)
    requires numExternalPins != 1 || numOutputPins == 0
    ensures pins == OutputPinCurves(m, numOutputPins, numExternalPins, outputPinDiameter / 2.0, outputDiskDiameter / 2.0, phi)
  {
    pins := OutputPins(m, numOutputPins, numExternalPins, outputPinDiameter / 2.0, outputDiskDiameter / 2.0, phi);
  }

  /** inner_circles: hole radius output-pin radius + e + tolerance. */
  method InnerCircles(m: Math, e: real, numOutputPins: nat, numExternalPins: nat, outputPinDiameter: real, outputDiskDiameter: real,
                      phi: real, tolerance: real)
    returns (holes: seq<Curve>)
    requires numExternalPins != 1 || numOutputPins == 0
    ensures holes == HoleCurves(m, e, numOutputPins, numExternalPins, HoleRadius(outputPinDiameter, e, tolerance), outputDiskDiameter / 2.0, phi)
  {
    holes := Holes(m, e, numOutputPins, numExternalPins, HoleRadius(outputPinDiameter, e, tolerance), outputDiskDiameter / 2.0, phi);
  }

  /** Where the disk carries the seat of output pin i. */
  function SeatCentre(m: Math, n: nat, numExternalPins: nat, diskRadius: real, phi: real, i: nat): Point
    requires n > 0 && numExternalPins != 1
  {
    Rotate(m, Polar(m, diskRadius, SpacedAngle(m, i, n)), DiskRotation(numExternalPins, phi))
  }

  /** Output pin i is a circle of radius pinRadius about the rotated seat,
      which is NOT moved by the eccentric; hole i is a circle of radius
      holeRadius about the same rotated seat moved by (e cos phi, e sin phi).
      So the hole centre is exactly e from the pin centre, and a pin of
      radius pinRadius clears the rim of its hole by holeRadius - pinRadius - e. */
  lemma PinsAndHoles(m: Math, e: real, n: nat, numExternalPins: nat, pinRadius: real, holeRadius: real, diskRadius: real, phi: real)
    requires Valid(m) && numExternalPins != 1
    ensures forall i :: 0 <= i < n ==>
      && OnCircle(OutputPinCurves(m, n, numExternalPins, pinRadius, diskRadius, phi)[i],
                  SeatCentre(m, n, numExternalPins, diskRadius, phi, i), pinRadius)
      && OnCircle(HoleCurves(m, e, n, numExternalPins, holeRadius, diskRadius, phi)[i],
                  Add(SeatCentre(m, n, numExternalPins, diskRadius, phi, i), Eccentric(m, e, phi)), holeRadius)
    ensures forall i :: 0 <= i < n ==>
      Dist2(Add(SeatCentre(m, n, numExternalPins, diskRadius, phi, i), Eccentric(m, e, phi)),
            SeatCentre(m, n, numExternalPins, diskRadius, phi, i)) == e * e
  {
    var rot := DiskRotation(numExternalPins, phi);
    var ts := CircleAngles(m);
    forall i | 0 <= i < n
      ensures OnCircle(OutputPinCurves(m, n, numExternalPins, pinRadius, diskRadius, phi)[i],
                       SeatCentre(m, n, numExternalPins, diskRadius, phi, i), pinRadius)
      ensures OnCircle(HoleCurves(m, e, n, numExternalPins, holeRadius, diskRadius, phi)[i],
                       Add(SeatCentre(m, n, numExternalPins, diskRadius, phi, i), Eccentric(m, e, phi)), holeRadius)
      ensures Dist2(Add(SeatCentre(m, n, numExternalPins, diskRadius, phi, i), Eccentric(m, e, phi)),
                    SeatCentre(m, n, numExternalPins, diskRadius, phi, i)) == e * e
    {
      var seat := Polar(m, diskRadius, SpacedAngle(m, i, n));
      var centre := SeatCentre(m, n, numExternalPins, diskRadius, phi, i);
      var ecc := Eccentric(m, e, phi);
      var pin := OutputPinCurves(m, n, numExternalPins, pinRadius, diskRadius, phi)[i];
      var hole := HoleCurves(m, e, n, numExternalPins, holeRadius, diskRadius, phi)[i];
      forall k | 0 <= k < CircleSamples
        ensures Dist2(pin[k], centre) == pinRadius * pinRadius
        ensures Dist2(hole[k], Add(centre, ecc)) == holeRadius * holeRadius
      {
        PinOutlineOnCircle(m, seat, pinRadius, ts[k]);
        RotateDist(m, PinOutlinePoint(m, seat, pinRadius, ts[k]), seat, rot);
        var q := Add(Polar(m, holeRadius, ts[k]), seat);
        RotateDist(m, q, seat, rot);
        assert Sub(q, seat) == Polar(m, holeRadius, ts[k]);
        PolarNorm(m, holeRadius, ts[k]);
        assert Sub(hole[k], Add(centre, ecc)) == Sub(Rotate(m, q, rot), centre);
      }
      assert Sub(Add(centre, ecc), centre) == ecc;
      PolarNorm(m, e, phi);
    }
  }

  /** Every output pin outline and every hole outline ends where it starts:
      samples 0 and 199 are taken at t = 0 and t = 2π. */
  lemma OutputOutlinesClosed(m: Math, e: real, n: nat, numExternalPins: nat, pinRadius: real, holeRadius: real, diskRadius: real, phi: real)
    requires Valid(m) && Periodic(m) && numExternalPins != 1
    ensures forall i :: 0 <= i < n ==>
      && Closed(OutputPinCurves(m, n, numExternalPins, pinRadius, diskRadius, phi)[i])
      && Closed(HoleCurves(m, e, n, numExternalPins, holeRadius, diskRadius, phi)[i])
  {
    forall i | 0 <= i < n
      ensures Closed(OutputPinCurves(m, n, numExternalPins, pinRadius, diskRadius, phi)[i])
      ensures Closed(HoleCurves(m, e, n, numExternalPins, holeRadius, diskRadius, phi)[i])
    {
      OutputPinClosed(m, n, numExternalPins, pinRadius, diskRadius, phi, i);
      HoleClosed(m, e, n, numExternalPins, holeRadius, diskRadius, phi, i);
    }
  }

  lemma OutputPinClosed(m: Math, n: nat, numExternalPins: nat, pinRadius: real, diskRadius: real, phi: real, i: nat)
    requires Valid(m) && Periodic(m) && i < n && numExternalPins != 1
    ensures Closed(OutputPinCurve(m, n, numExternalPins, pinRadius, diskRadius, phi, i))
  {
    var c := OutputPinCurve(m, n, numExternalPins, pinRadius, diskRadius, phi, i);
    var seat := Polar(m, diskRadius, SpacedAngle(m, i, n));
    var rot := DiskRotation(numExternalPins, phi);
    CircleAnglesEnds(m);
    PinOutlineTurn(m, seat, pinRadius);
    assert c[0] == Rotate(m, PinOutlinePoint(m, seat, pinRadius, 0.0), rot);
    assert c[CircleSamples - 1] == Rotate(m, PinOutlinePoint(m, seat, pinRadius, 2.0 * m.pi), rot);
  }

  lemma HoleClosed(m: Math, e: real, n: nat, numExternalPins: nat, holeRadius: real, diskRadius: real, phi: real, i: nat)
    requires Valid(m) && Periodic(m) && i < n && numExternalPins != 1
    ensures Closed(HoleCurve(m, e, n, numExternalPins, holeRadius, diskRadius, phi, i))
  {
    var c := HoleCurve(m, e, n, numExternalPins, holeRadius, diskRadius, phi, i);
    var seat := Polar(m, diskRadius, SpacedAngle(m, i, n));
    var rot := DiskRotation(numExternalPins, phi);
    CircleAnglesEnds(m);
    PolarTurn(m, holeRadius);
    assert c[0] == Add(Rotate(m, Add(Polar(m, holeRadius, 0.0), seat), rot), Eccentric(m, e, phi));
    assert c[CircleSamples - 1] == Add(Rotate(m, Add(Polar(m, holeRadius, 2.0 * m.pi), seat), rot), Eccentric(m, e, phi));
  }

  lemma PolarTurn(m: Math, r: real)
    requires Periodic(m)
    ensures Polar(m, r, 2.0 * m.pi) == Polar(m, r, 0.0)
  {
    ZeroTurn(m);
    var s1, s0 := m.sin(2.0 * m.pi), m.sin(0.0);
    var c1, c0 := m.cos(2.0 * m.pi), m.cos(0.0);
    assert Polar(m, r, 2.0 * m.pi) == Point(r * c1, r * s1);
    assert Polar(m, r, 0.0) == Point(r * c0, r * s0);
  }

  // ---------------------------------------------------------------- cycloid_disk

  function RollingRadius(lobes: nat, ringRadius: real): real
  {
    (lobes as real / (lobes + 1) as real) * ringRadius
  }

  function StationaryRadius(lobes: nat, ringRadius: real): (s: real)
    ensures ringRadius != 0.0 ==> s != 0.0
  {
    ringRadius / (lobes + 1) as real
  }

  /** The two generating radii add up to the ring radius, and the inner
      frequency (rolling + stationary) / stationary is the pin count L + 1. */
  lemma DiskRadii(lobes: nat, ringRadius: real)
    requires ringRadius != 0.0
    ensures StationaryRadius(lobes, ringRadius) != 0.0
    ensures RollingRadius(lobes, ringRadius) + StationaryRadius(lobes, ringRadius) == ringRadius
    ensures (RollingRadius(lobes, ringRadius) + StationaryRadius(lobes, ringRadius)) / StationaryRadius(lobes, ringRadius)
            == (lobes + 1) as real
  {
    var n := (lobes + 1) as real;
    var s := ringRadius / n;
    assert s * n == ringRadius;
    var q := lobes as real / n;
    assert q * n == lobes as real;
    assert q * ringRadius + s == (q * n) * s + s;
    assert (q * n) * s + s == n * s;
  }

  /** The inner angle (r + s)/s * t of the trochoid. */
  function InnerAngle(lobes: nat, ringRadius: real, t: real): real
    requires ringRadius != 0.0
  {
    (RollingRadius(lobes, ringRadius) + StationaryRadius(lobes, ringRadius)) / StationaryRadius(lobes, ringRadius) * t
  }

  /** The trochoid (xa, ya) at parameter t. */
  function Trochoid(m: Math, e: real, lobes: nat, ringRadius: real, t: real): Point
    requires ringRadius != 0.0
  {
    var a := RollingRadius(lobes, ringRadius) + StationaryRadius(lobes, ringRadius);
    var s := StationaryRadius(lobes, ringRadius);
    Point(a * m.cos(t) - e * m.cos(InnerAngle(lobes, ringRadius, t)), a * m.sin(t) - e * m.sin(InnerAngle(lobes, ringRadius, t)))
  }

  /** The analytic derivative (dxa, dya) of the trochoid. */
  function TrochoidTangent(m: Math, e: real, lobes: nat, ringRadius: real, t: real): Point
    requires ringRadius != 0.0
  {
    var a := RollingRadius(lobes, ringRadius) + StationaryRadius(lobes, ringRadius);
    var s := StationaryRadius(lobes, ringRadius);
    Point(a * (-m.sin(t) + (e / s) * m.sin(InnerAngle(lobes, ringRadius, t))),
          a * (m.cos(t) - (e / s) * m.cos(InnerAngle(lobes, ringRadius, t))))
  }

  /** The offset divides by the tangent's length; where it is zero numpy
      produces non-finite coordinates. */
  predicate Degenerate(m: Math, e: real, lobes: nat, ringRadius: real, t: real)
    requires ringRadius != 0.0
  {
    m.sqrt(Norm2(TrochoidTangent(m, e, lobes, ringRadius, t))) == 0.0
  }

  /** The disk profile point: the trochoid point pushed out by `offset`
      along (-dya, dxa) divided by the tangent's length. */
  function ProfilePoint(m: Math, e: real, lobes: nat, ringRadius: real, offset: real, t: real): Point
    requires ringRadius != 0.0 && !Degenerate(m, e, lobes, ringRadius, t)
  {
    var p := Trochoid(m, e, lobes, ringRadius, t);
    var d := TrochoidTangent(m, e, lobes, ringRadius, t);
    var k := offset / m.sqrt(Norm2(d));
    Point(p.x + k * (-d.y), p.y + k * d.x)
  }

  /** A profile sample rotated by `rot` and moved to `centre`; NaN where the
      offset is undefined. */
  function PlacedSample(m: Math, e: real, lobes: nat, ringRadius: real, offset: real, t: real, rot: real, centre: Point): Point
    requires ringRadius != 0.0
  {
    if Degenerate(m, e, lobes, ringRadius, t) then NanPoint(m)
    else Add(Rotate(m, ProfilePoint(m, e, lobes, ringRadius, offset, t), rot), centre)
  }

  /** The disk outline sampled at `count` points of np.linspace(0, 2π, count),
      rotated by -phi/L and centred on the eccentric. */
  function DiskCurve(m: Math, e: real, numExternalPins: nat, ringRadius: real, offset: real, phi: real, count: nat): (c: Curve)
    requires numExternalPins >= 2 && ringRadius != 0.0
    ensures |c| == count
  {
    var ts := Linspace(0.0, 2.0 * m.pi, count);
    seq(count, k requires 0 <= k < count =>
      PlacedSample(m, e, numExternalPins - 1, ringRadius, offset, ts[k], DiskRotation(numExternalPins, phi), Eccentric(m, e, phi)))
  }

  /** cycloid_disk: a list holding one continuous outline of 1500 samples per lobe. */
  function CycloidDisk(m: Math, e: real, numExternalPins: nat, ringDiameter: real, pinDiameter: real, phi: real, tolerance: real): (curves: seq<Curve>)
    requires numExternalPins >= 2 && ringDiameter != 0.0
    ensures |curves| == 1
    ensures |curves[0]| == DiskPointsPerLobe * (numExternalPins - 1)
  {
    [DiskCurve(m, e, numExternalPins, ringDiameter / 2.0, EffectivePinRadius(pinDiameter, tolerance), phi,
               DiskPointsPerLobe * (numExternalPins - 1))]
  }

  /** Under the axioms, the offset is undefined exactly where the tangent vanishes. */
  lemma DegenerateIffStill(m: Math, e: real, lobes: nat, ringRadius: real, t: real)
    requires Valid(m) && ringRadius != 0.0
    ensures Degenerate(m, e, lobes, ringRadius, t) <==> Norm2(TrochoidTangent(m, e, lobes, ringRadius, t)) == 0.0
  {
    var d := TrochoidTangent(m, e, lobes, ringRadius, t);
    var n2 := Norm2(d);
    var xx, yy := d.x * d.x, d.y * d.y;
    assert 0.0 <= xx && 0.0 <= yy;
    if n2 > 0.0 {
      SqrtPositive(m, n2);
    } else {
      var s := m.sqrt(n2);
      Root(m, n2);
      assert 0.0 <= s && s * s == 0.0;
      if s > 0.0 {
        SquareStrictlyMonotone(0.0, s);
      }
    }
  }

  /** Where the tangent does not vanish, the profile point lies exactly
      `offset` from the trochoid point, perpendicular to the tangent, on the
      side of (-dya, dxa) when the offset is positive. */
  lemma OffsetDistance(m: Math, e: real, lobes: nat, ringRadius: real, offset: real, t: real)
    requires Valid(m) && ringRadius != 0.0
    requires Norm2(TrochoidTangent(m, e, lobes, ringRadius, t)) > 0.0
    ensures !Degenerate(m, e, lobes, ringRadius, t)
    ensures var v := Sub(ProfilePoint(m, e, lobes, ringRadius, offset, t), Trochoid(m, e, lobes, ringRadius, t));
            var d := TrochoidTangent(m, e, lobes, ringRadius, t);
            && Norm2(v) == offset * offset
            && v.x * d.x + v.y * d.y == 0.0
            && (offset > 0.0 ==> v.x * (-d.y) + v.y * d.x > 0.0)
  {
    var d := TrochoidTangent(m, e, lobes, ringRadius, t);
    SqrtPositive(m, Norm2(d));
    Root(m, Norm2(d));
    OffsetAlongNormal(Trochoid(m, e, lobes, ringRadius, t), d, offset, m.sqrt(Norm2(d)));
  }

  /** The tangent is (R/(L+1))(L+1) times the difference of the unit normal
      at t and the normal at the inner angle scaled by e/s. */
  lemma TangentAsDifference(m: Math, e: real, lobes: nat, ringRadius: real, t: real)
    requires ringRadius != 0.0
    ensures TrochoidTangent(m, e, lobes, ringRadius, t)
            == Scale(RollingRadius(lobes, ringRadius) + StationaryRadius(lobes, ringRadius),
                     Sub(Point(-m.sin(t), m.cos(t)),
                         Scale(e / StationaryRadius(lobes, ringRadius),
                               Point(-m.sin(InnerAngle(lobes, ringRadius, t)), m.cos(InnerAngle(lobes, ringRadius, t))))))
  {
    var a := RollingRadius(lobes, ringRadius) + StationaryRadius(lobes, ringRadius);
    var q := e / StationaryRadius(lobes, ringRadius);
    var f := InnerAngle(lobes, ringRadius, t);
    var u := Sub(Point(-m.sin(t), m.cos(t)), Scale(q, Point(-m.sin(f), m.cos(f))));
    assert u.x == -m.sin(t) + q * m.sin(f);
    assert u.y == m.cos(t) - q * m.cos(f);
    assert TrochoidTangent(m, e, lobes, ringRadius, t) == Point(a * u.x, a * u.y);
  }

  lemma UnitNormal(m: Math, t: real)
    requires Valid(m)
    ensures Norm2(Point(-m.sin(t), m.cos(t))) == 1.0
  {
    Unit(m, t);
  }

  lemma PositiveScaledNorm(a: real, v: Point)
    requires a > 0.0 && Norm2(v) > 0.0
    ensures Norm2(Scale(a, v)) > 0.0
  {
    ScaleNorm(a, v);
    SquareStrictlyMonotone(0.0, a);
    ProductPositive(a * a, Norm2(v));
  }

  /** The tangent never vanishes while the eccentricity is below the
      stationary radius R/(L+1): |tangent|² >= R² (1 - e/s)² > 0. */
  lemma TangentNonZero(m: Math, e: real, lobes: nat, ringRadius: real, t: real)
    requires Valid(m) && ringRadius > 0.0
    requires 0.0 <= e < StationaryRadius(lobes, ringRadius)
    ensures Norm2(TrochoidTangent(m, e, lobes, ringRadius, t)) > 0.0
  {
    DiskRadii(lobes, ringRadius);
    var s := StationaryRadius(lobes, ringRadius);
    var f := InnerAngle(lobes, ringRadius, t);
    QuotientBelowOne(e, s);
    UnitNormal(m, t);
    UnitNormal(m, f);
    ScaleNorm(e / s, Point(-m.sin(f), m.cos(f)));
    UnitMinusShorter(Point(-m.sin(t), m.cos(t)), Scale(e / s, Point(-m.sin(f), m.cos(f))), e / s);
    PositiveScaledNorm(RollingRadius(lobes, ringRadius) + s,
                       Sub(Point(-m.sin(t), m.cos(t)), Scale(e / s, Point(-m.sin(f), m.cos(f)))));
    TangentAsDifference(m, e, lobes, ringRadius, t);
  }

  /** cycloid_disk returns one curve of 1500 samples per lobe; sample k is the
      profile at t_k of np.linspace(0, 2π, 1500 L), whose ends are 0 and 2π. */
  lemma CycloidDiskShape(m: Math, e: real, numExternalPins: nat, ringDiameter: real, pinDiameter: real, phi: real, tolerance: real)
    requires numExternalPins >= 2 && ringDiameter != 0.0
    ensures var c := CycloidDisk(m, e, numExternalPins, ringDiameter, pinDiameter, phi, tolerance)[0];
            var ts := Linspace(0.0, 2.0 * m.pi, DiskPointsPerLobe * (numExternalPins - 1));
            && |c| == |ts| == DiskPointsPerLobe * (numExternalPins - 1)
            && ts[0] == 0.0 && ts[|ts| - 1] == 2.0 * m.pi
            && forall k :: 0 <= k < |c| ==>
                 c[k] == PlacedSample(m, e, numExternalPins - 1, ringDiameter / 2.0, pinDiameter / 2.0 + tolerance, ts[k],
                                      DiskRotation(numExternalPins, phi), Eccentric(m, e, phi))
  {
    var count := DiskPointsPerLobe * (numExternalPins - 1);
    LinspaceLast(0.0, 2.0 * m.pi, count);
    var c := CycloidDisk(m, e, numExternalPins, ringDiameter, pinDiameter, phi, tolerance)[0];
    assert c == DiskCurve(m, e, numExternalPins, ringDiameter / 2.0, pinDiameter / 2.0 + tolerance, phi, count);
    DiskCurveSamples(m, e, numExternalPins, ringDiameter / 2.0, pinDiameter / 2.0 + tolerance, phi, count);
  }

  lemma DiskCurveSamples(m: Math, e: real, numExternalPins: nat, ringRadius: real, offset: real, phi: real, count: nat)
    requires numExternalPins >= 2 && ringRadius != 0.0
    ensures var c := DiskCurve(m, e, numExternalPins, ringRadius, offset, phi, count);
            var ts := Linspace(0.0, 2.0 * m.pi, count);
            forall k :: 0 <= k < count ==>
              c[k] == PlacedSample(m, e, numExternalPins - 1, ringRadius, offset, ts[k], DiskRotation(numExternalPins, phi), Eccentric(m, e, phi))
  {
  }

  /** Rotating by -phi/L keeps every well-defined disk sample at its profile
      point's distance from the origin, now measured from (e cos phi, e sin phi). */
  lemma DiskKeepsDistanceFromCentre(m: Math, e: real, numExternalPins: nat, ringDiameter: real, pinDiameter: real, phi: real, tolerance: real)
    requires Valid(m) && numExternalPins >= 2 && ringDiameter != 0.0
    ensures var c := CycloidDisk(m, e, numExternalPins, ringDiameter, pinDiameter, phi, tolerance)[0];
            var ts := Linspace(0.0, 2.0 * m.pi, DiskPointsPerLobe * (numExternalPins - 1));
            forall k :: 0 <= k < |c| && !Degenerate(m, e, numExternalPins - 1, ringDiameter / 2.0, ts[k]) ==>
              Dist2(c[k], Eccentric(m, e, phi))
              == Norm2(ProfilePoint(m, e, numExternalPins - 1, ringDiameter / 2.0, EffectivePinRadius(pinDiameter, tolerance), ts[k]))
  {
    var c := CycloidDisk(m, e, numExternalPins, ringDiameter, pinDiameter, phi, tolerance)[0];
    var ts := Linspace(0.0, 2.0 * m.pi, DiskPointsPerLobe * (numExternalPins - 1));
    forall k | 0 <= k < |c| && !Degenerate(m, e, numExternalPins - 1, ringDiameter / 2.0, ts[k])
      ensures Dist2(c[k], Eccentric(m, e, phi))
              == Norm2(ProfilePoint(m, e, numExternalPins - 1, ringDiameter / 2.0, EffectivePinRadius(pinDiameter, tolerance), ts[k]))
    {
      DiskSampleDistance(m, e, numExternalPins, ringDiameter, pinDiameter, phi, tolerance, k);
    }
  }

  lemma DiskSampleDistance(m: Math, e: real, numExternalPins: nat, ringDiameter: real, pinDiameter: real, phi: real, tolerance: real, k: nat)
    requires Valid(m) && numExternalPins >= 2 && ringDiameter != 0.0
    requires k < DiskPointsPerLobe * (numExternalPins - 1)
    requires !Degenerate(m, e, numExternalPins - 1, ringDiameter / 2.0, Linspace(0.0, 2.0 * m.pi, DiskPointsPerLobe * (numExternalPins - 1))[k])
    ensures Dist2(CycloidDisk(m, e, numExternalPins, ringDiameter, pinDiameter, phi, tolerance)[0][k], Eccentric(m, e, phi))
            == Norm2(ProfilePoint(m, e, numExternalPins - 1, ringDiameter / 2.0, EffectivePinRadius(pinDiameter, tolerance),
                                  Linspace(0.0, 2.0 * m.pi, DiskPointsPerLobe * (numExternalPins - 1))[k]))
  {
    var t := Linspace(0.0, 2.0 * m.pi, DiskPointsPerLobe * (numExternalPins - 1))[k];
    var rot := DiskRotation(numExternalPins, phi);
    var centre := Eccentric(m, e, phi);
    var p := ProfilePoint(m, e, numExternalPins - 1, ringDiameter / 2.0, EffectivePinRadius(pinDiameter, tolerance), t);
    CycloidDiskShape(m, e, numExternalPins, ringDiameter, pinDiameter, phi, tolerance);
    assert CycloidDisk(m, e, numExternalPins, ringDiameter, pinDiameter, phi, tolerance)[0][k] == Add(Rotate(m, p, rot), centre);
    AddSubCancel(Rotate(m, p, rot), centre);
    RotateNorm(m, p, rot);
  }

  lemma AddSubCancel(v: Point, w: Point)
    ensures Sub(Add(v, w), w) == v
  {
  }

  /** A disk sample depends on its rotation only through the rotation's cos and sin. */
  lemma PlacedSampleTurn(m: Math, e: real, lobes: nat, ringRadius: real, offset: real, t: real, rot1: real, rot2: real, centre: Point)
    requires ringRadius != 0.0
    requires m.cos(rot1) == m.cos(rot2) && m.sin(rot1) == m.sin(rot2)
    ensures PlacedSample(m, e, lobes, ringRadius, offset, t, rot1, centre) == PlacedSample(m, e, lobes, ringRadius, offset, t, rot2, centre)
  {
  }

  /** Turning the input shaft through L full turns turns the disk once:
      -phi/L shifts by exactly 2π. */
  lemma DiskRotationTurns(m: Math, numExternalPins: nat, phi: real)
    requires numExternalPins >= 2
    ensures DiskRotation(numExternalPins, phi) == DiskRotation(numExternalPins, phi + 2.0 * m.pi * (numExternalPins - 1) as real) + 2.0 * m.pi
  {
    var l := (numExternalPins - 1) as real;
    var tl := 2.0 * m.pi * l;
    assert tl / l == 2.0 * m.pi;
    assert -(phi + tl) / l == -phi / l - tl / l;
  }

  /** A disk outline is unchanged when the rotation and centre it is drawn
      with have the same cos, sin and centre. */
  lemma DiskCurveTurn(m: Math, e: real, numExternalPins: nat, ringRadius: real, offset: real, phi1: real, phi2: real, count: nat)
    requires numExternalPins >= 2 && ringRadius != 0.0
    requires Eccentric(m, e, phi1) == Eccentric(m, e, phi2)
    requires m.cos(DiskRotation(numExternalPins, phi1)) == m.cos(DiskRotation(numExternalPins, phi2))
    requires m.sin(DiskRotation(numExternalPins, phi1)) == m.sin(DiskRotation(numExternalPins, phi2))
    ensures DiskCurve(m, e, numExternalPins, ringRadius, offset, phi1, count) == DiskCurve(m, e, numExternalPins, ringRadius, offset, phi2, count)
  {
    var ts := Linspace(0.0, 2.0 * m.pi, count);
    var c1 := DiskCurve(m, e, numExternalPins, ringRadius, offset, phi1, count);
    var c2 := DiskCurve(m, e, numExternalPins, ringRadius, offset, phi2, count);
    DiskCurveSamples(m, e, numExternalPins, ringRadius, offset, phi1, count);
    DiskCurveSamples(m, e, numExternalPins, ringRadius, offset, phi2, count);
    forall k | 0 <= k < count
      ensures c1[k] == c2[k]
    {
      PlacedSampleTurn(m, e, numExternalPins - 1, ringRadius, offset, ts[k],
                       DiskRotation(numExternalPins, phi1), DiskRotation(numExternalPins, phi2), Eccentric(m, e, phi1));
    }
  }

  /** Turning the input shaft through L full turns returns the disk to the
      same outline: the disk makes one turn per L input turns. */
  lemma DiskLobeSymmetry(m: Math, e: real, numExternalPins: nat, ringDiameter: real, pinDiameter: real, phi: real, tolerance: real)
    requires Periodic(m) && numExternalPins >= 2 && ringDiameter != 0.0
    ensures CycloidDisk(m, e, numExternalPins, ringDiameter, pinDiameter, phi + 2.0 * m.pi * (numExternalPins - 1) as real, tolerance)
            == CycloidDisk(m, e, numExternalPins, ringDiameter, pinDiameter, phi, tolerance)
  {
    var lobes: nat := numExternalPins - 1;
    var phi2 := phi + 2.0 * m.pi * lobes as real;
    assert phi2 == phi + 2.0 * m.pi * (numExternalPins - 1) as real;
    PeriodicTurns(m, phi, lobes);
    DiskRotationTurns(m, numExternalPins, phi);
    FullTurn(m, DiskRotation(numExternalPins, phi2));
    DiskCurveTurn(m, e, numExternalPins, ringDiameter / 2.0, EffectivePinRadius(pinDiameter, tolerance), phi2, phi,
                  DiskPointsPerLobe * (numExternalPins - 1));
  }

  /** cycloid_disk's outline is one closed loop: its last sample, at t = 2π,
      is its first, at t = 0. */
  lemma CycloidDiskClosed(m: Math, e: real, numExternalPins: nat, ringDiameter: real, pinDiameter: real, phi: real, tolerance: real)
    requires Periodic(m) && numExternalPins >= 2 && ringDiameter != 0.0
    ensures Closed(CycloidDisk(m, e, numExternalPins, ringDiameter, pinDiameter, phi, tolerance)[0])
  {
    DiskCurveClosed(m, e, numExternalPins, ringDiameter / 2.0, EffectivePinRadius(pinDiameter, tolerance), phi,
                    DiskPointsPerLobe * (numExternalPins - 1));
  }

  /** A disk outline of at least two samples over [0, 2π] ends where it starts. */
  lemma DiskCurveClosed(m: Math, e: real, numExternalPins: nat, ringRadius: real, offset: real, phi: real, count: nat)
    requires Periodic(m) && numExternalPins >= 2 && ringRadius != 0.0 && count >= 2
    ensures Closed(DiskCurve(m, e, numExternalPins, ringRadius, offset, phi, count))
  {
    DiskCurveEnds(m, e, numExternalPins, ringRadius, offset, phi, count);
    PlacedSampleEnds(m, e, numExternalPins - 1, ringRadius, offset, DiskRotation(numExternalPins, phi), Eccentric(m, e, phi));
  }

  /** The first and last disk samples are taken at t = 0 and t = 2π. */
  lemma DiskCurveEnds(m: Math, e: real, numExternalPins: nat, ringRadius: real, offset: real, phi: real, count: nat)
    requires numExternalPins >= 2 && ringRadius != 0.0 && count >= 2
    ensures var c := DiskCurve(m, e, numExternalPins, ringRadius, offset, phi, count);
            var rot, centre := DiskRotation(numExternalPins, phi), Eccentric(m, e, phi);
            && c[0] == PlacedSample(m, e, numExternalPins - 1, ringRadius, offset, 0.0, rot, centre)
            && c[count - 1] == PlacedSample(m, e, numExternalPins - 1, ringRadius, offset, 2.0 * m.pi, rot, centre)
  {
    LinspaceLast(0.0, 2.0 * m.pi, count);
  }

  /** The placed sample at t = 2π is the one at t = 0. */
  lemma PlacedSampleEnds(m: Math, e: real, lobes: nat, ringRadius: real, offset: real, rot: real, centre: Point)
    requires Periodic(m) && ringRadius != 0.0
    ensures PlacedSample(m, e, lobes, ringRadius, offset, 2.0 * m.pi, rot, centre)
            == PlacedSample(m, e, lobes, ringRadius, offset, 0.0, rot, centre)
  {
    TrochoidEnds(m, e, lobes, ringRadius);
  }

  /** The trochoid and its tangent take the same values at t = 2π as at t = 0,
      since the inner angle then makes L + 1 whole turns. */
  lemma TrochoidEnds(m: Math, e: real, lobes: nat, ringRadius: real)
    requires Periodic(m) && ringRadius != 0.0
    ensures Trochoid(m, e, lobes, ringRadius, 2.0 * m.pi) == Trochoid(m, e, lobes, ringRadius, 0.0)
    ensures TrochoidTangent(m, e, lobes, ringRadius, 2.0 * m.pi) == TrochoidTangent(m, e, lobes, ringRadius, 0.0)
  {
    ZeroTurn(m);
    InnerAngleEnds(m, lobes, ringRadius);
    TrochoidPointEnds(m, e, lobes, ringRadius);
    TrochoidTangentEnds(m, e, lobes, ringRadius);
  }

  /** The trochoid depends on t only through cos and sin of t and of the inner angle. */
  lemma TrochoidPointEnds(m: Math, e: real, lobes: nat, ringRadius: real)
    requires ringRadius != 0.0
    requires m.cos(2.0 * m.pi) == m.cos(0.0) && m.sin(2.0 * m.pi) == m.sin(0.0)
    requires m.cos(InnerAngle(lobes, ringRadius, 2.0 * m.pi)) == m.cos(InnerAngle(lobes, ringRadius, 0.0))
    requires m.sin(InnerAngle(lobes, ringRadius, 2.0 * m.pi)) == m.sin(InnerAngle(lobes, ringRadius, 0.0))
    ensures Trochoid(m, e, lobes, ringRadius, 2.0 * m.pi) == Trochoid(m, e, lobes, ringRadius, 0.0)
  {
    var a := RollingRadius(lobes, ringRadius) + StationaryRadius(lobes, ringRadius);
    var i1, i0 := InnerAngle(lobes, ringRadius, 2.0 * m.pi), InnerAngle(lobes, ringRadius, 0.0);
    var c1, c0 := m.cos(2.0 * m.pi), m.cos(0.0);
    var s1, s0 := m.sin(2.0 * m.pi), m.sin(0.0);
    assert Trochoid(m, e, lobes, ringRadius, 2.0 * m.pi) == Point(a * c1 - e * m.cos(i1), a * s1 - e * m.sin(i1));
    assert Trochoid(m, e, lobes, ringRadius, 0.0) == Point(a * c0 - e * m.cos(i0), a * s0 - e * m.sin(i0));
  }

  /** The same for the tangent. */
  lemma TrochoidTangentEnds(m: Math, e: real, lobes: nat, ringRadius: real)
    requires ringRadius != 0.0
    requires m.cos(2.0 * m.pi) == m.cos(0.0) && m.sin(2.0 * m.pi) == m.sin(0.0)
    requires m.cos(InnerAngle(lobes, ringRadius, 2.0 * m.pi)) == m.cos(InnerAngle(lobes, ringRadius, 0.0))
    requires m.sin(InnerAngle(lobes, ringRadius, 2.0 * m.pi)) == m.sin(InnerAngle(lobes, ringRadius, 0.0))
    ensures TrochoidTangent(m, e, lobes, ringRadius, 2.0 * m.pi) == TrochoidTangent(m, e, lobes, ringRadius, 0.0)
  {
    var a := RollingRadius(lobes, ringRadius) + StationaryRadius(lobes, ringRadius);
    var s := StationaryRadius(lobes, ringRadius);
    var i1, i0 := InnerAngle(lobes, ringRadius, 2.0 * m.pi), InnerAngle(lobes, ringRadius, 0.0);
    var c1, c0 := m.cos(2.0 * m.pi), m.cos(0.0);
    var s1, s0 := m.sin(2.0 * m.pi), m.sin(0.0);
    assert TrochoidTangent(m, e, lobes, ringRadius, 2.0 * m.pi) == Point(a * (-s1 + (e / s) * m.sin(i1)), a * (c1 - (e / s) * m.cos(i1)));
    assert TrochoidTangent(m, e, lobes, ringRadius, 0.0) == Point(a * (-s0 + (e / s) * m.sin(i0)), a * (c0 - (e / s) * m.cos(i0)));
  }

  /** The inner angle is 0 at t = 0 and L + 1 whole turns at t = 2π. */
  lemma InnerAngleEnds(m: Math, lobes: nat, ringRadius: real)
    requires Periodic(m) && ringRadius != 0.0
    ensures m.cos(InnerAngle(lobes, ringRadius, 2.0 * m.pi)) == m.cos(InnerAngle(lobes, ringRadius, 0.0))
    ensures m.sin(InnerAngle(lobes, ringRadius, 2.0 * m.pi)) == m.sin(InnerAngle(lobes, ringRadius, 0.0))
  {
    DiskRadii(lobes, ringRadius);
    var turns: nat := lobes + 1;
    assert InnerAngle(lobes, ringRadius, 2.0 * m.pi) == 0.0 + 2.0 * m.pi * turns as real;
    assert InnerAngle(lobes, ringRadius, 0.0) == 0.0;
    PeriodicTurns(m, 0.0, turns);
  }

  // ---------------------------------------------------------------- camshaft and eccentric_camshaft

  /** camshaft: the bore in the disk, centred on the origin. */
  function Camshaft(m: Math, camshaftDiameter: real, phi: real, tolerance: real): (c: Curve)
    ensures |c| == CircleSamples
  {
    CircleCurve(m, Origin, CamHoleDiameter(camshaftDiameter, tolerance) / 2.0)
  }

  /** eccentric_camshaft: the shaft, centred on the eccentric. */
  function EccentricCamshaft(m: Math, e: real, camshaftDiameter: real, phi: real): (c: Curve)
    ensures |c| == CircleSamples
  {
    CircleCurve(m, Eccentric(m, e, phi), ShaftRadius(camshaftDiameter, e))
  }

  /** The bore is a circle of radius camshaft_d/2 + tol about the origin,
      whatever the phase. */
  lemma CamshaftBore(m: Math, camshaftDiameter: real, phi: real, tolerance: real, phi2: real)
    requires Valid(m)
    ensures OnCircle(Camshaft(m, camshaftDiameter, phi, tolerance), Origin, camshaftDiameter / 2.0 + tolerance)
    ensures Camshaft(m, camshaftDiameter, phi, tolerance) == Camshaft(m, camshaftDiameter, phi2, tolerance)
  {
    CircleCurveOnCircle(m, Origin, CamHoleDiameter(camshaftDiameter, tolerance) / 2.0);
  }

  /** The shaft is a circle of radius (camshaft_d - 2e)/2 about (e cos phi, e sin phi);
      the shaft and the bore leave a gap of exactly e + tol on the far side. */
  lemma EccentricShaft(m: Math, e: real, camshaftDiameter: real, phi: real, tolerance: real)
    requires Valid(m) && e >= 0.0
    ensures OnCircle(EccentricCamshaft(m, e, camshaftDiameter, phi), Polar(m, e, phi), (camshaftDiameter - 2.0 * e) / 2.0)
    ensures Norm2(Eccentric(m, e, phi)) == e * e
    ensures CamHoleDiameter(camshaftDiameter, tolerance) / 2.0 - ShaftRadius(camshaftDiameter, e) == e + tolerance
  {
    CircleCurveOnCircle(m, Eccentric(m, e, phi), ShaftRadius(camshaftDiameter, e));
    PolarNorm(m, e, phi);
  }

  /** The shaft's centre and the disk's translation are the one vector
      (e cos phi, e sin phi): every well-defined disk sample, less that
      vector, is the rotated profile point, and the shaft is centred on it. */
  lemma EccentricityShared(m: Math, e: real, numExternalPins: nat, ringDiameter: real, pinDiameter: real, camshaftDiameter: real,
                           phi: real, tolerance: real)
    requires Valid(m) && numExternalPins >= 2 && ringDiameter != 0.0
    ensures OnCircle(EccentricCamshaft(m, e, camshaftDiameter, phi), Polar(m, e, phi), ShaftRadius(camshaftDiameter, e))
    ensures var c := CycloidDisk(m, e, numExternalPins, ringDiameter, pinDiameter, phi, tolerance)[0];
            var ts := Linspace(0.0, 2.0 * m.pi, DiskPointsPerLobe * (numExternalPins - 1));
            forall k :: 0 <= k < |c| && !Degenerate(m, e, numExternalPins - 1, ringDiameter / 2.0, ts[k]) ==>
              Sub(c[k], Polar(m, e, phi))
              == Rotate(m, ProfilePoint(m, e, numExternalPins - 1, ringDiameter / 2.0, EffectivePinRadius(pinDiameter, tolerance), ts[k]),
                        -phi / ((numExternalPins - 1) as real))
  {
    CircleCurveOnCircle(m, Eccentric(m, e, phi), ShaftRadius(camshaftDiameter, e));
  }

  /** While 0 <= e < R/(L+1), every sample of the displayed disk is well
      defined and its profile point lies exactly pin_d/2 + tol from the
      trochoid: the tolerance widens the gap to every external pin. */
  lemma DiskClearance(m: Math, e: real, numExternalPins: nat, ringDiameter: real, pinDiameter: real, tolerance: real)
    requires Valid(m) && numExternalPins >= 2 && ringDiameter > 0.0
    requires 0.0 <= e < StationaryRadius(numExternalPins - 1, ringDiameter / 2.0)
    ensures var ts := Linspace(0.0, 2.0 * m.pi, DiskPointsPerLobe * (numExternalPins - 1));
            forall k :: 0 <= k < |ts| ==>
              && !Degenerate(m, e, numExternalPins - 1, ringDiameter / 2.0, ts[k])
              && Dist2(ProfilePoint(m, e, numExternalPins - 1, ringDiameter / 2.0, pinDiameter / 2.0 + tolerance, ts[k]),
                       Trochoid(m, e, numExternalPins - 1, ringDiameter / 2.0, ts[k]))
                 == (pinDiameter / 2.0 + tolerance) * (pinDiameter / 2.0 + tolerance)
  {
    var ts := Linspace(0.0, 2.0 * m.pi, DiskPointsPerLobe * (numExternalPins - 1));
    forall k | 0 <= k < |ts|
      ensures !Degenerate(m, e, numExternalPins - 1, ringDiameter / 2.0, ts[k])
      ensures Dist2(ProfilePoint(m, e, numExternalPins - 1, ringDiameter / 2.0, pinDiameter / 2.0 + tolerance, ts[k]),
                    Trochoid(m, e, numExternalPins - 1, ringDiameter / 2.0, ts[k]))
              == (pinDiameter / 2.0 + tolerance) * (pinDiameter / 2.0 + tolerance)
    {
      TangentNonZero(m, e, numExternalPins - 1, ringDiameter / 2.0, ts[k]);
      OffsetDistance(m, e, numExternalPins - 1, ringDiameter / 2.0, pinDiameter / 2.0 + tolerance, ts[k]);
    }
  }

  // ---------------------------------------------------------------- outer_ring

  /** The housing wall radius at angle a: pocketed to R - 0.8 rp at the pins
      (cos(N a) = 1) and opened to R + 0.8 rp between them. */
  function WallRadius(m: Math, ringRadius: real, pinRadius: real, numPins: nat, angle: real): real
  {
    var pocketDepth := pinRadius * 0.8;
    var clearanceSpace := pinRadius * 0.8;
    var radiusVariation := pocketDepth + clearanceSpace;
    ringRadius - pocketDepth + radiusVariation * (1.0 - m.cos((numPins as real) * angle)) / 2.0
  }

  lemma WallRadiusBounds(m: Math, ringRadius: real, pinRadius: real, numPins: nat, angle: real)
    requires Valid(m) && pinRadius >= 0.0
    ensures ringRadius - 0.8 * pinRadius <= WallRadius(m, ringRadius, pinRadius, numPins, angle) <= ringRadius + 0.8 * pinRadius
    ensures m.cos((numPins as real) * angle) == 1.0 ==> WallRadius(m, ringRadius, pinRadius, numPins, angle) == ringRadius - 0.8 * pinRadius
    ensures m.cos((numPins as real) * angle) == -1.0 ==> WallRadius(m, ringRadius, pinRadius, numPins, angle) == ringRadius + 0.8 * pinRadius
  {
    var c := m.cos((numPins as real) * angle);
    Unit(m, (numPins as real) * angle);
    var v := 1.6 * pinRadius;
    assert WallRadius(m, ringRadius, pinRadius, numPins, angle) == ringRadius - 0.8 * pinRadius + v * ((1.0 - c) / 2.0);
    var f := (1.0 - c) / 2.0;
    assert 0.0 <= f <= 1.0;
    assert 0.0 <= v * f;
    assert v * f <= v by {
      assert v * (1.0 - f) >= 0.0;
    }
  }

  /** The inner profile's sample angle 2πi/(100 N). */
  function HousingAngle(m: Math, numPins: nat, i: nat): real
    requires numPins >= 1
  {
    SpacedAngle(m, i, HousingPointsPerPin * numPins)
  }

  /** The 100 N wall samples before the profile is closed. */
  function WallSamples(m: Math, numPins: nat, ringDiameter: real, pinDiameter: real): (s: Curve)
    requires numPins >= 1
    ensures |s| == HousingPointsPerPin * numPins
  {
    seq(HousingPointsPerPin * numPins, i requires 0 <= i < HousingPointsPerPin * numPins =>
      var a := HousingAngle(m, numPins, i);
      Polar(m, WallRadius(m, ringDiameter / 2.0, pinDiameter / 2.0, numPins, a), a))
  }

  /** outer_ring's inner profile: the wall samples, then the first one again. */
  function HousingInner(m: Math, numPins: nat, ringDiameter: real, pinDiameter: real): (c: Curve)
    requires numPins >= 1
    ensures |c| == HousingPointsPerPin * numPins + 1
    ensures Closed(c)
  {
    var s := WallSamples(m, numPins, ringDiameter, pinDiameter);
    s + [s[0]]
  }

  /** outer_ring's outer profile: a circle of radius ring radius + width. */
  function HousingOuter(m: Math, ringDiameter: real, ringWidth: real): (c: Curve)
    ensures |c| == CircleSamples
  {
    CircleCurve(m, Origin, ringDiameter / 2.0 + ringWidth)
  }

  /** The first loop of outer_ring: 100 N wall samples, then the first again. */
  method InnerProfile(m: Math, numPins: nat, ringDiameter: real, pinDiameter: real) returns (inner: Curve)
    requires numPins >= 1
    ensures inner == HousingInner(m, numPins, ringDiameter, pinDiameter)
  {
    var totalPoints := HousingPointsPerPin * numPins;
    ghost var samples := WallSamples(m, numPins, ringDiameter, pinDiameter);
    inner := [];
    var i := 0;
    while i < totalPoints
      invariant 0 <= i <= totalPoints
      invariant |inner| == i
      invariant forall k :: 0 <= k < i ==> inner[k] == samples[k]
    {
      var angle := 2.0 * m.pi * (i as real) / (totalPoints as real);
      var innerRadius := WallRadius(m, ringDiameter / 2.0, pinDiameter / 2.0, numPins, angle);
      assert angle == HousingAngle(m, numPins, i);
      inner := inner + [Point(innerRadius * m.cos(angle), innerRadius * m.sin(angle))];
      i := i + 1;
    }
    assert inner == samples;
    inner := inner + [inner[0]];
  }

  /** The second loop of outer_ring: the outer circle, point by point. */
  method OuterProfile(m: Math, ringDiameter: real, ringWidth: real) returns (outer: Curve)
    ensures outer == HousingOuter(m, ringDiameter, ringWidth)
  {
    outer := [];
    var outerRadius := ringDiameter / 2.0 + ringWidth;
    var ts := Linspace(0.0, 2.0 * m.pi, CircleSamples);
    ghost var circle := HousingOuter(m, ringDiameter, ringWidth);
    var j := 0;
    while j < |ts|
      invariant 0 <= j <= |ts|
      invariant |outer| == j
      invariant forall k :: 0 <= k < j ==> outer[k] == circle[k]
    {
      outer := outer + [Point(outerRadius * m.cos(ts[j]) + 0.0, outerRadius * m.sin(ts[j]) + 0.0)];
      j := j + 1;
    }
    assert outer == circle;
  }

  /** outer_ring: the housing's inner and outer profiles. The tolerance
      argument is accepted and not used. */
  method OuterRing(m: Math, numPins: nat, ringDiameter: real, pinDiameter: real, ringWidth: real, tolerance: real)
    returns (inner: Curve, outer: Curve)
    requires numPins >= 1
    ensures inner == HousingInner(m, numPins, ringDiameter, pinDiameter)
    ensures outer == HousingOuter(m, ringDiameter, ringWidth)
  {
    inner := InnerProfile(m, numPins, ringDiameter, pinDiameter);
    outer := OuterProfile(m, ringDiameter, ringWidth);
  }

  /** Samples 100 j of the inner profile, at the angle of pin j, sit at the
      pocket depth R - 0.8 rp. */
  lemma WallAtPin(m: Math, numPins: nat, ringRadius: real, pinRadius: real, j: nat)
    requires Valid(m) && Periodic(m) && pinRadius >= 0.0 && j < numPins
    ensures WallRadius(m, ringRadius, pinRadius, numPins, HousingAngle(m, numPins, HousingPointsPerPin * j)) == ringRadius - 0.8 * pinRadius
  {
    var a := HousingAngle(m, numPins, HousingPointsPerPin * j);
    PinTurns(m, numPins, j);
    CosWholeTurns(m, j);
    WallRadiusBounds(m, ringRadius, pinRadius, numPins, a);
  }

  /** N times the angle of sample 100 j is j whole turns. */
  lemma PinTurns(m: Math, numPins: nat, j: nat)
    requires j < numPins
    ensures (numPins as real) * HousingAngle(m, numPins, HousingPointsPerPin * j) == 2.0 * m.pi * j as real
  {
    var n := numPins as real;
    var h := HousingPointsPerPin as real;
    assert HousingAngle(m, numPins, HousingPointsPerPin * j) == 2.0 * m.pi * (h * j as real) / (h * n);
    FractionCancel(2.0 * m.pi, j as real, n, h);
  }

  lemma CosWholeTurns(m: Math, j: nat)
    requires Valid(m) && Periodic(m)
    ensures m.cos(2.0 * m.pi * j as real) == 1.0
  {
    PeriodicTurns(m, 0.0, j);
    assert 0.0 + 2.0 * m.pi * j as real == 2.0 * m.pi * j as real;
  }

  lemma FractionCancel(x: real, j: real, n: real, h: real)
    requires n > 0.0 && h > 0.0
    ensures n * (x * (h * j) / (h * n)) == x * j
  {
    var hn := h * n;
    assert hn > 0.0;
    var f := x * (h * j) / hn;
    assert f * hn == x * (h * j);
    assert (n * f) * h == (x * j) * h;
  }

  /** Every sample of the inner profile lies between the pocket radius
      R - 0.8 rp and R + 0.8 rp from the centre. */
  lemma HousingInnerBounds(m: Math, numPins: nat, ringDiameter: real, pinDiameter: real)
    requires Valid(m) && numPins >= 1 && 0.0 <= 0.8 * (pinDiameter / 2.0) <= ringDiameter / 2.0
    ensures var c := HousingInner(m, numPins, ringDiameter, pinDiameter);
            var lo, hi := ringDiameter / 2.0 - 0.8 * (pinDiameter / 2.0), ringDiameter / 2.0 + 0.8 * (pinDiameter / 2.0);
            forall i :: 0 <= i < |c| ==> lo * lo <= Norm2(c[i]) <= hi * hi
  {
    forall i | 0 <= i < HousingPointsPerPin * numPins + 1
      ensures var lo, hi := ringDiameter / 2.0 - 0.8 * (pinDiameter / 2.0), ringDiameter / 2.0 + 0.8 * (pinDiameter / 2.0);
              lo * lo <= Norm2(HousingInner(m, numPins, ringDiameter, pinDiameter)[i]) <= hi * hi
    {
      HousingInnerSampleBounds(m, numPins, ringDiameter, pinDiameter, i);
    }
  }

  lemma HousingInnerSampleBounds(m: Math, numPins: nat, ringDiameter: real, pinDiameter: real, i: nat)
    requires Valid(m) && numPins >= 1 && 0.0 <= 0.8 * (pinDiameter / 2.0) <= ringDiameter / 2.0
    requires i < HousingPointsPerPin * numPins + 1
    ensures var lo, hi := ringDiameter / 2.0 - 0.8 * (pinDiameter / 2.0), ringDiameter / 2.0 + 0.8 * (pinDiameter / 2.0);
            lo * lo <= Norm2(HousingInner(m, numPins, ringDiameter, pinDiameter)[i]) <= hi * hi
  {
    var c := HousingInner(m, numPins, ringDiameter, pinDiameter);
    var s := WallSamples(m, numPins, ringDiameter, pinDiameter);
    var j := if i < |s| then i else 0;
    assert c[i] == s[j];
    WallSampleBounds(m, numPins, ringDiameter / 2.0, pinDiameter / 2.0, j);
  }

  lemma WallSampleBounds(m: Math, numPins: nat, ringRadius: real, pinRadius: real, j: nat)
    requires Valid(m) && numPins >= 1 && 0.0 <= 0.8 * pinRadius <= ringRadius
    ensures var a := HousingAngle(m, numPins, j);
            var p := Polar(m, WallRadius(m, ringRadius, pinRadius, numPins, a), a);
            var lo, hi := ringRadius - 0.8 * pinRadius, ringRadius + 0.8 * pinRadius;
            lo * lo <= Norm2(p) <= hi * hi
  {
    var a := HousingAngle(m, numPins, j);
    var w := WallRadius(m, ringRadius, pinRadius, numPins, a);
    var lo, hi := ringRadius - 0.8 * pinRadius, ringRadius + 0.8 * pinRadius;
    WallRadiusBounds(m, ringRadius, pinRadius, numPins, a);
    PolarNorm(m, w, a);
    if lo < w {
      SquareStrictlyMonotone(lo, w);
    }
    if w < hi {
      SquareStrictlyMonotone(w, hi);
    }
  }

  /** outer_ring returns a closed inner profile of 100 N + 1 samples, at the
      pocket depth at every pin, and an outer circle of radius R + width. */
  lemma HousingProfiles(m: Math, numPins: nat, ringDiameter: real, pinDiameter: real, ringWidth: real)
    requires Valid(m) && Periodic(m) && numPins >= 1 && pinDiameter >= 0.0
    ensures var c := HousingInner(m, numPins, ringDiameter, pinDiameter);
            && |c| == HousingPointsPerPin * numPins + 1 && Closed(c)
            && forall j :: 0 <= j < numPins ==>
                 var a := HousingAngle(m, numPins, HousingPointsPerPin * j);
                 c[HousingPointsPerPin * j] == Polar(m, ringDiameter / 2.0 - 0.8 * (pinDiameter / 2.0), a)
    ensures OnCircle(HousingOuter(m, ringDiameter, ringWidth), Origin, ringDiameter / 2.0 + ringWidth)
  {
    forall j | 0 <= j < numPins
      ensures WallRadius(m, ringDiameter / 2.0, pinDiameter / 2.0, numPins, HousingAngle(m, numPins, HousingPointsPerPin * j))
              == ringDiameter / 2.0 - 0.8 * (pinDiameter / 2.0)
    {
      WallAtPin(m, numPins, ringDiameter / 2.0, pinDiameter / 2.0, j);
    }
    CircleCurveOnCircle(m, Origin, ringDiameter / 2.0 + ringWidth);
  }
}
