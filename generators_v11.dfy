/** The generators of cycloidal_Gear_generator_V1-1.py. pin_ring and
    eccentric_camshaft are the later versions' code (Generators.PinRing and
    Generators.EccentricCamshaft). The others differ: `rd` and `Rd` are already
    radii, nothing carries a tolerance, holes are rd + e, and the disk is drawn
    as L separate arcs, one per lobe. */
module GeneratorsV11 {
  import opened RealMath
  import opened Generators

  /** inner_pins of V1-1: rd and Rd are the pin and seat radii. */
  method InnerPins(m: Math, n: nat, numExternalPins: nat, rd: real, seatRadius: real, phi: real) returns (pins: seq<Curve>)
    requires numExternalPins != 1 || n == 0
    ensures pins == OutputPinCurves(m, n, numExternalPins, rd, seatRadius, phi)
  {
    pins := OutputPins(m, n, numExternalPins, rd, seatRadius, phi);
  }

  /** V1-1's hole radius: the output pin radius plus the eccentricity. */
  function HoleRadius11(rd: real, e: real): real
  {
    rd + e
  }

  /** inner_circles of V1-1. */
  method InnerCircles(m: Math, e: real, n: nat, numExternalPins: nat, rd: real, seatRadius: real, phi: real) returns (holes: seq<Curve>)
    requires numExternalPins != 1 || n == 0
    ensures holes == HoleCurves(m, e, n, numExternalPins, HoleRadius11(rd, e), seatRadius, phi)
  {
    holes := Holes(m, e, n, numExternalPins, HoleRadius11(rd, e), seatRadius, phi);
  }

  /** The output pins and holes of V1-1 keep the later versions' geometry:
      a hole of radius rd + e about each pin seat moved by the eccentric, so
      the pin orbits touching its hole's rim. */
  lemma HolesAndPins11(m: Math, e: real, n: nat, numExternalPins: nat, rd: real, seatRadius: real, phi: real)
    requires Valid(m) && numExternalPins != 1
    ensures forall i :: 0 <= i < n ==>
      && OnCircle(OutputPinCurves(m, n, numExternalPins, rd, seatRadius, phi)[i],
                  SeatCentre(m, n, numExternalPins, seatRadius, phi, i), rd)
      && OnCircle(HoleCurves(m, e, n, numExternalPins, HoleRadius11(rd, e), seatRadius, phi)[i],
                  Add(SeatCentre(m, n, numExternalPins, seatRadius, phi, i), Eccentric(m, e, phi)), rd + e)
    ensures HoleRadius11(rd, e) - rd == e
  {
    PinsAndHoles(m, e, n, numExternalPins, rd, HoleRadius11(rd, e), seatRadius, phi);
  }

  /** camshaft of V1-1: the bore has radius camshaft_d/2 about the origin. */
  function Camshaft11(m: Math, camshaftDiameter: real, phi: real): (c: Curve)
    ensures |c| == CircleSamples
  {
    CircleCurve(m, Origin, camshaftDiameter / 2.0)
  }

  /** The V1-1 bore is a circle of radius camshaft_d/2 about the origin for
      every phase, with no tolerance, and the eccentric shaft of radius
      (camshaft_d - 2e)/2 about (e cos phi, e sin phi) fits it with e to spare. */
  lemma CamshaftBore11(m: Math, e: real, camshaftDiameter: real, phi: real, phi2: real)
    requires Valid(m) && e >= 0.0
    ensures OnCircle(Camshaft11(m, camshaftDiameter, phi), Origin, camshaftDiameter / 2.0)
    ensures Camshaft11(m, camshaftDiameter, phi) == Camshaft11(m, camshaftDiameter, phi2)
    ensures OnCircle(EccentricCamshaft(m, e, camshaftDiameter, phi), Polar(m, e, phi), (camshaftDiameter - 2.0 * e) / 2.0)
    ensures camshaftDiameter / 2.0 - ShaftRadius(camshaftDiameter, e) == e
  {
    CircleCurveOnCircle(m, Origin, camshaftDiameter / 2.0);
    EccentricShaft(m, e, camshaftDiameter, phi, 0.0);
  }

  // ---------------------------------------------------------------- the segmented disk

  /** The arc parameter: np.linspace(-π/L, π/L, 1500). */
  function ArcAngles(m: Math, lobes: nat): (ts: seq<real>)
    requires lobes >= 1
    ensures |ts| == DiskPointsPerLobe
  {
    Linspace(-(m.pi as real) / (lobes as real), m.pi / (lobes as real), DiskPointsPerLobe)
  }

  /** Segment i is turned by i·2π/L - phi/L. */
  function SegmentRotation(m: Math, lobes: nat, i: nat, phi: real): real
    requires lobes >= 1
  {
    ((i * 2) as real) * m.pi / (lobes as real) - phi / (lobes as real)
  }

  /** Arc i of the disk: the profile offset by d/2 over one lobe's parameter
      range, turned to lobe i and carried by the eccentric. */
  function DiskSegment(m: Math, e: real, numExternalPins: nat, ringDiameter: real, pinDiameter: real, phi: real, i: nat): (c: Curve)
    requires numExternalPins >= 2 && ringDiameter != 0.0
    ensures |c| == DiskPointsPerLobe
  {
    var lobes := numExternalPins - 1;
    var ts := ArcAngles(m, lobes);
    seq(DiskPointsPerLobe, k requires 0 <= k < DiskPointsPerLobe =>
      PlacedSample(m, e, lobes, ringDiameter / 2.0, pinDiameter / 2.0, ts[k], SegmentRotation(m, lobes, i, phi), Eccentric(m, e, phi)))
  }

  function DiskSegments(m: Math, e: real, numExternalPins: nat, ringDiameter: real, pinDiameter: real, phi: real): (curves: seq<Curve>)
    requires numExternalPins >= 2 && ringDiameter != 0.0
    ensures |curves| == numExternalPins - 1
  {
    seq(numExternalPins - 1, i requires 0 <= i < numExternalPins - 1 => DiskSegment(m, e, numExternalPins, ringDiameter, pinDiameter, phi, i))
  }

  /** cycloid_disk of V1-1: one arc per lobe, appended in lobe order. */
  method CycloidDisk11(m: Math, e: real, numExternalPins: nat, ringDiameter: real, pinDiameter: real, phi: real) returns (curves: seq<Curve>)
    requires numExternalPins >= 2 && ringDiameter != 0.0
    ensures curves == DiskSegments(m, e, numExternalPins, ringDiameter, pinDiameter, phi)
  {
    var num := numExternalPins - 1;
    curves := [];
    var i := 0;
    while i < num
      invariant 0 <= i <= num
      invariant |curves| == i
      invariant forall k :: 0 <= k < i ==> curves[k] == DiskSegments(m, e, numExternalPins, ringDiameter, pinDiameter, phi)[k]
    {
      curves := curves + [DiskSegment(m, e, numExternalPins, ringDiameter, pinDiameter, phi, i)];
      i := i + 1;
    }
  }

  /** V1-1's disk is N - 1 arcs of 1500 samples; the arc parameter runs from
      -π/L to π/L inclusive; every well-defined sample of arc i, less
      (e cos phi, e sin phi), is the profile point offset by d/2 and turned
      by i·2π/L - phi/L. */
  lemma DiskSegmentsShape(m: Math, e: real, numExternalPins: nat, ringDiameter: real, pinDiameter: real, phi: real)
    requires Valid(m) && numExternalPins >= 2 && ringDiameter != 0.0
    ensures var segs := DiskSegments(m, e, numExternalPins, ringDiameter, pinDiameter, phi);
            var ts := ArcAngles(m, numExternalPins - 1);
            && |segs| == numExternalPins - 1
            && ts[0] == -(m.pi as real) / ((numExternalPins - 1) as real)
            && ts[DiskPointsPerLobe - 1] == m.pi / ((numExternalPins - 1) as real)
            && forall i, k :: 0 <= i < |segs| && 0 <= k < DiskPointsPerLobe ==>
                 && |segs[i]| == DiskPointsPerLobe
                 && (!Degenerate(m, e, numExternalPins - 1, ringDiameter / 2.0, ts[k]) ==>
                       Sub(segs[i][k], Polar(m, e, phi))
                       == Rotate(m, ProfilePoint(m, e, numExternalPins - 1, ringDiameter / 2.0, pinDiameter / 2.0, ts[k]),
                                 SegmentRotation(m, numExternalPins - 1, i, phi)))
  {
    ArcEnds(m, numExternalPins - 1);
    var segs := DiskSegments(m, e, numExternalPins, ringDiameter, pinDiameter, phi);
    var ts := ArcAngles(m, numExternalPins - 1);
    forall i, k | 0 <= i < |segs| && 0 <= k < DiskPointsPerLobe && !Degenerate(m, e, numExternalPins - 1, ringDiameter / 2.0, ts[k])
      ensures Sub(segs[i][k], Polar(m, e, phi))
              == Rotate(m, ProfilePoint(m, e, numExternalPins - 1, ringDiameter / 2.0, pinDiameter / 2.0, ts[k]),
                        SegmentRotation(m, numExternalPins - 1, i, phi))
    {
      SegmentPlacement(m, e, numExternalPins, ringDiameter, pinDiameter, phi, i, k);
    }
  }

  lemma SegmentPlacement(m: Math, e: real, numExternalPins: nat, ringDiameter: real, pinDiameter: real, phi: real, i: nat, k: nat)
    requires numExternalPins >= 2 && ringDiameter != 0.0 && i < numExternalPins - 1 && k < DiskPointsPerLobe
    requires !Degenerate(m, e, numExternalPins - 1, ringDiameter / 2.0, ArcAngles(m, numExternalPins - 1)[k])
    ensures Sub(DiskSegments(m, e, numExternalPins, ringDiameter, pinDiameter, phi)[i][k], Polar(m, e, phi))
            == Rotate(m, ProfilePoint(m, e, numExternalPins - 1, ringDiameter / 2.0, pinDiameter / 2.0, ArcAngles(m, numExternalPins - 1)[k]),
                      SegmentRotation(m, numExternalPins - 1, i, phi))
  {
    var t := ArcAngles(m, numExternalPins - 1)[k];
    var p := Rotate(m, ProfilePoint(m, e, numExternalPins - 1, ringDiameter / 2.0, pinDiameter / 2.0, t),
                    SegmentRotation(m, numExternalPins - 1, i, phi));
    assert DiskSegment(m, e, numExternalPins, ringDiameter, pinDiameter, phi, i)[k] == Add(p, Eccentric(m, e, phi));
  }

  lemma ArcEnds(m: Math, lobes: nat)
    requires Valid(m) && lobes >= 1
    ensures ArcAngles(m, lobes)[0] == -(m.pi as real) / (lobes as real)
    ensures ArcAngles(m, lobes)[DiskPointsPerLobe - 1] == m.pi / (lobes as real)
  {
    var l := lobes as real;
    assert -(m.pi as real) / l <= m.pi / l by {
      assert m.pi / l > 0.0;
    }
    LinspaceRange(-(m.pi as real) / l, m.pi / l, DiskPointsPerLobe);
  }

  /** Every well-defined sample of arc i keeps its profile point's distance
      from the eccentric centre. */
  lemma SegmentKeepsDistance(m: Math, e: real, numExternalPins: nat, ringDiameter: real, pinDiameter: real, phi: real, i: nat)
    requires Valid(m) && numExternalPins >= 2 && ringDiameter != 0.0 && i < numExternalPins - 1
    ensures var seg := DiskSegments(m, e, numExternalPins, ringDiameter, pinDiameter, phi)[i];
            var ts := ArcAngles(m, numExternalPins - 1);
            forall k :: 0 <= k < DiskPointsPerLobe && !Degenerate(m, e, numExternalPins - 1, ringDiameter / 2.0, ts[k]) ==>
              Dist2(seg[k], Eccentric(m, e, phi))
              == Norm2(ProfilePoint(m, e, numExternalPins - 1, ringDiameter / 2.0, pinDiameter / 2.0, ts[k]))
  {
    var seg := DiskSegments(m, e, numExternalPins, ringDiameter, pinDiameter, phi)[i];
    var ts := ArcAngles(m, numExternalPins - 1);
    var rot := SegmentRotation(m, numExternalPins - 1, i, phi);
    forall k | 0 <= k < DiskPointsPerLobe && !Degenerate(m, e, numExternalPins - 1, ringDiameter / 2.0, ts[k])
      ensures Dist2(seg[k], Eccentric(m, e, phi))
              == Norm2(ProfilePoint(m, e, numExternalPins - 1, ringDiameter / 2.0, pinDiameter / 2.0, ts[k]))
    {
      var p := ProfilePoint(m, e, numExternalPins - 1, ringDiameter / 2.0, pinDiameter / 2.0, ts[k]);
      assert Sub(seg[k], Eccentric(m, e, phi)) == Rotate(m, p, rot);
      RotateNorm(m, p, rot);
    }
  }

  /** V1-1's radii: rc + rm = D/2, and while 0 <= e < rm every sample of
      every arc is well defined and lies exactly d/2 from the trochoid, with
      no tolerance term. */
  lemma DiskRadii11(m: Math, e: real, numExternalPins: nat, ringDiameter: real, pinDiameter: real)
    requires Valid(m) && numExternalPins >= 2 && ringDiameter > 0.0
    requires 0.0 <= e < StationaryRadius(numExternalPins - 1, ringDiameter / 2.0)
    ensures RollingRadius(numExternalPins - 1, ringDiameter / 2.0) + StationaryRadius(numExternalPins - 1, ringDiameter / 2.0) == ringDiameter / 2.0
    ensures var ts := ArcAngles(m, numExternalPins - 1);
            forall k :: 0 <= k < DiskPointsPerLobe ==>
              && !Degenerate(m, e, numExternalPins - 1, ringDiameter / 2.0, ts[k])
              && Dist2(ProfilePoint(m, e, numExternalPins - 1, ringDiameter / 2.0, pinDiameter / 2.0, ts[k]),
                       Trochoid(m, e, numExternalPins - 1, ringDiameter / 2.0, ts[k]))
                 == (pinDiameter / 2.0) * (pinDiameter / 2.0)
  {
    DiskRadii(numExternalPins - 1, ringDiameter / 2.0);
    var ts := ArcAngles(m, numExternalPins - 1);
    forall k | 0 <= k < DiskPointsPerLobe
      ensures !Degenerate(m, e, numExternalPins - 1, ringDiameter / 2.0, ts[k])
      ensures Dist2(ProfilePoint(m, e, numExternalPins - 1, ringDiameter / 2.0, pinDiameter / 2.0, ts[k]),
                    Trochoid(m, e, numExternalPins - 1, ringDiameter / 2.0, ts[k]))
              == (pinDiameter / 2.0) * (pinDiameter / 2.0)
    {
      TangentNonZero(m, e, numExternalPins - 1, ringDiameter / 2.0, ts[k]);
      OffsetDistance(m, e, numExternalPins - 1, ringDiameter / 2.0, pinDiameter / 2.0, ts[k]);
    }
  }
}
