// What the DXF drawing holds, entity by entity, and how it lines up with the
// on-screen geometry.

module DxfDocument {
  import opened RealMath
  import opened Generators
  import opened DxfExport

  /** Index of the first output pin circle: after the axis point, the pin
      centres and (when shown) the two outer ring entities. */
  function OutputsStart(p: Params): nat
  {
    1 + p.numExternalPins + (if p.showOuterRing then 2 else 0)
  }

  /** Number of entities after the holes: bore, eccentric cam when its
      radius is positive, and the disk spline. */
  function TailCount(p: Params): nat
  {
    2 + (if ShaftRadius(p.camshaftDiameter, p.eccentricity) > 0.0 then 1 else 0)
  }

  /** Model space starts with the axis point, then one point per pin centre,
      then the closed silhouette polyline of 30 vertices per pin and the
      outer circle of radius R + ring width when the ring is shown. */
  lemma DxfReferenceLayout(m: Math, p: Params, phi: real, trackDisk: bool)
    requires p.numExternalPins >= 2 && p.ringDiameter != 0.0
    ensures var es := DxfEntities(m, p, phi, trackDisk);
            var ne := p.numExternalPins;
            && |es| == OutputsStart(p) + 2 * p.numOutputPins + TailCount(p)
            && es[0] == DxfPoint("CENTER_AXIS", Origin)
            && (forall i :: 1 <= i < 1 + ne ==> es[i] == DxfPoint("PIN_CENTERS", PinCentre(m, ne, p.ringDiameter, i - 1)))
            && (p.showOuterRing ==>
                  && es[1 + ne] == Polyline("OUTER_RING", SilhouettePoints(m, ne, p.ringDiameter / 2.0, p.pinDiameter / 2.0), true)
                  && |es[1 + ne].vertices| == SilhouettePointsPerPin * ne
                  && es[2 + ne] == Circle("OUTER_RING", Origin, p.ringDiameter / 2.0 + p.outerRingWidth))
  {
    HeadGroup(m, p, phi, trackDisk);
    ReferenceContents(m, p);
  }

  /** The reference group on its own: axis point, pin centres, outer ring. */
  lemma ReferenceContents(m: Math, p: Params)
    requires p.numExternalPins >= 1
    ensures var head := ReferenceEntities(m, p);
            var ne := p.numExternalPins;
            && head[0] == DxfPoint("CENTER_AXIS", Origin)
            && (forall i :: 1 <= i < 1 + ne ==> head[i] == DxfPoint("PIN_CENTERS", PinCentre(m, ne, p.ringDiameter, i - 1)))
            && (p.showOuterRing ==>
                  && head[1 + ne] == Polyline("OUTER_RING", SilhouettePoints(m, ne, p.ringDiameter / 2.0, p.pinDiameter / 2.0), true)
                  && |head[1 + ne].vertices| == SilhouettePointsPerPin * ne
                  && head[2 + ne] == Circle("OUTER_RING", Origin, p.ringDiameter / 2.0 + p.outerRingWidth))
  {
    var axis, pins, ring := [DxfPoint("CENTER_AXIS", Origin)], PinCentreEntities(m, p), RingEntities(m, p);
    ConcatHead(axis, pins, ring);
    ConcatMid(axis, pins, ring);
    ConcatTail(axis, pins, ring);
  }

  /** The reference entities sit as one block at the start. */
  lemma HeadGroup(m: Math, p: Params, phi: real, trackDisk: bool)
    requires p.numExternalPins >= 2 && p.ringDiameter != 0.0
    ensures var es := DxfEntities(m, p, phi, trackDisk);
            var head := ReferenceEntities(m, p);
            && |head| == OutputsStart(p)
            && |es| == OutputsStart(p) + 2 * p.numOutputPins + TailCount(p)
            && forall i :: 0 <= i < |head| ==> es[i] == head[i]
  {
    var head := ReferenceEntities(m, p);
    var mid := OutputEntities(m, p, phi, trackDisk);
    var tail := TailEntities(m, p, phi);
    ConcatHead(head, mid, tail);
  }

  /** Then the output pin circles, one per output pin, then the holes, one
      per output pin; OutputPinEntityAt and HoleEntityAt give each one. */
  lemma DxfOutputLayout(m: Math, p: Params, phi: real, trackDisk: bool)
    requires p.numExternalPins >= 2 && p.ringDiameter != 0.0
    ensures var es := DxfEntities(m, p, phi, trackDisk);
            var h, no := OutputsStart(p), p.numOutputPins;
            && |es| == h + 2 * no + TailCount(p)
            && (forall i :: h <= i < h + no ==> es[i] == OutputPinEntities(m, p, phi, trackDisk)[i - h])
            && (forall i :: h + no <= i < h + 2 * no ==> es[i] == HoleEntities(m, p, phi, trackDisk)[i - h - no])
  {
    OutputPinsLayout(m, p, phi, trackDisk);
    HolesLayout(m, p, phi, trackDisk);
  }

  lemma OutputPinsLayout(m: Math, p: Params, phi: real, trackDisk: bool)
    requires p.numExternalPins >= 2 && p.ringDiameter != 0.0
    ensures var es := DxfEntities(m, p, phi, trackDisk);
            var h, no := OutputsStart(p), p.numOutputPins;
            && |es| == h + 2 * no + TailCount(p)
            && forall i :: h <= i < h + no ==> es[i] == OutputPinEntities(m, p, phi, trackDisk)[i - h]
  {
    OutputGroup(m, p, phi, trackDisk);
    BlockSplit(DxfEntities(m, p, phi, trackDisk), OutputsStart(p), OutputPinEntities(m, p, phi, trackDisk), HoleEntities(m, p, phi, trackDisk));
  }

  lemma HolesLayout(m: Math, p: Params, phi: real, trackDisk: bool)
    requires p.numExternalPins >= 2 && p.ringDiameter != 0.0
    ensures var es := DxfEntities(m, p, phi, trackDisk);
            var h, no := OutputsStart(p), p.numOutputPins;
            forall i :: h + no <= i < h + 2 * no ==> es[i] == HoleEntities(m, p, phi, trackDisk)[i - h - no]
  {
    OutputGroup(m, p, phi, trackDisk);
    BlockSplit(DxfEntities(m, p, phi, trackDisk), OutputsStart(p), OutputPinEntities(m, p, phi, trackDisk), HoleEntities(m, p, phi, trackDisk));
  }

  /** Output pin k is drawn as a circle of radius out_pin_d/2 about its seat. */
  lemma OutputPinEntityAt(m: Math, p: Params, phi: real, trackDisk: bool, k: nat)
    requires p.numExternalPins >= 2 && k < p.numOutputPins
    ensures OutputPinEntities(m, p, phi, trackDisk)[k]
            == Circle("OUTPUT_PINS", OutputSeat(m, p, phi, k, trackDisk), p.outputPinDiameter / 2.0)
  {
  }

  /** Hole k is a circle of radius out_pin_d/2 + e + tol about seat k moved
      by the eccentric. */
  lemma HoleEntityAt(m: Math, p: Params, phi: real, trackDisk: bool, k: nat)
    requires p.numExternalPins >= 2 && k < p.numOutputPins
    ensures HoleEntities(m, p, phi, trackDisk)[k]
            == Circle("OUTPUT_HOLES", Add(OutputSeat(m, p, phi, k, trackDisk), DiskCentre(m, p.eccentricity, phi)),
                      p.outputPinDiameter / 2.0 + p.eccentricity + p.tolerance)
  {
  }

  /** A block of a sequence holding a + b holds a, then b. */
  lemma BlockSplit<T>(es: seq<T>, h: nat, a: seq<T>, b: seq<T>)
    requires h + |a| + |b| <= |es|
    requires forall i :: h <= i < h + |a| + |b| ==> es[i] == (a + b)[i - h]
    ensures forall i :: h <= i < h + |a| ==> es[i] == a[i - h]
    ensures forall i :: h + |a| <= i < h + |a| + |b| ==> es[i] == b[i - h - |a|]
  {
    forall i | h <= i < h + |a| + |b|
      ensures i < h + |a| ==> es[i] == a[i - h]
      ensures h + |a| <= i ==> es[i] == b[i - h - |a|]
    {
      assert es[i] == (a + b)[i - h];
    }
  }

  /** The output circles sit as one block after the reference entities. */
  lemma OutputGroup(m: Math, p: Params, phi: real, trackDisk: bool)
    requires p.numExternalPins >= 2 && p.ringDiameter != 0.0
    ensures var es := DxfEntities(m, p, phi, trackDisk);
            var mid := OutputEntities(m, p, phi, trackDisk);
            var h := OutputsStart(p);
            && |es| == h + 2 * p.numOutputPins + TailCount(p)
            && forall i :: h <= i < h + 2 * p.numOutputPins ==> es[i] == mid[i - h]
  {
    var head := ReferenceEntities(m, p);
    var mid := OutputEntities(m, p, phi, trackDisk);
    var tail := TailEntities(m, p, phi);
    ConcatMid(head, mid, tail);
  }

  /** Model space ends with the bore circle of radius cam_d/2 + tol at the
      origin, the eccentric cam (only when (cam_d - 2e)/2 > 0) about the disk
      centre, and the closed disk spline of 60 points per lobe. */
  lemma DxfTailLayout(m: Math, p: Params, phi: real, trackDisk: bool)
    requires p.numExternalPins >= 2 && p.ringDiameter != 0.0
    ensures var es := DxfEntities(m, p, phi, trackDisk);
            var k := OutputsStart(p) + 2 * p.numOutputPins;
            var camLobe := (p.camshaftDiameter - 2.0 * p.eccentricity) / 2.0;
            && |es| == k + TailCount(p)
            && es[k] == Circle("CAMSHAFT_HOLE", Origin, p.camshaftDiameter / 2.0 + p.tolerance)
            && (camLobe > 0.0 ==> es[k + 1] == Circle("ECCENTRIC_CAM", DiskCentre(m, p.eccentricity, phi), camLobe))
            && es[|es| - 1].Spline?
            && es[|es| - 1].closed
            && es[|es| - 1].points
               == DiskCurve(m, p.eccentricity, p.numExternalPins, p.ringDiameter / 2.0, p.pinDiameter / 2.0 + p.tolerance, phi,
                            SplinePointsPerLobe * (p.numExternalPins - 1))
            && |es[|es| - 1].points| == 60 * (p.numExternalPins - 1)
  {
    TailGroup(m, p, phi, trackDisk);
    TailContents(m, p, phi);
  }

  /** The disk spline written to the drawing is a closed outline: its last
      point repeats its first. */
  lemma DxfSplineClosed(m: Math, p: Params, phi: real, trackDisk: bool)
    requires Periodic(m) && p.numExternalPins >= 2 && p.ringDiameter != 0.0
    ensures var es := DxfEntities(m, p, phi, trackDisk);
            && |es| > 0 && es[|es| - 1].Spline?
            && Closed(es[|es| - 1].points)
  {
    DxfTailLayout(m, p, phi, trackDisk);
    DiskCurveClosed(m, p.eccentricity, p.numExternalPins, p.ringDiameter / 2.0, p.pinDiameter / 2.0 + p.tolerance, phi,
                    SplinePointsPerLobe * (p.numExternalPins - 1));
  }

  /** The tail group sits as one block at the end of model space. */
  lemma TailGroup(m: Math, p: Params, phi: real, trackDisk: bool)
    requires p.numExternalPins >= 2 && p.ringDiameter != 0.0
    ensures var es := DxfEntities(m, p, phi, trackDisk);
            var tail := TailEntities(m, p, phi);
            var k := OutputsStart(p) + 2 * p.numOutputPins;
            && |tail| == TailCount(p)
            && |es| == k + |tail|
            && forall i :: k <= i < |es| ==> es[i] == tail[i - k]
  {
    var head := ReferenceEntities(m, p);
    var mid := OutputEntities(m, p, phi, trackDisk);
    var tail := TailEntities(m, p, phi);
    ConcatTail(head, mid, tail);
  }

  /** The tail group on its own: bore, eccentric cam, disk spline. */
  lemma TailContents(m: Math, p: Params, phi: real)
    requires p.numExternalPins >= 2 && p.ringDiameter != 0.0
    ensures var tail := TailEntities(m, p, phi);
            var camLobe := (p.camshaftDiameter - 2.0 * p.eccentricity) / 2.0;
            && |tail| == TailCount(p)
            && tail[0] == Circle("CAMSHAFT_HOLE", Origin, p.camshaftDiameter / 2.0 + p.tolerance)
            && (camLobe > 0.0 ==> tail[1] == Circle("ECCENTRIC_CAM", DiskCentre(m, p.eccentricity, phi), camLobe))
            && tail[|tail| - 1] == DiskSpline(m, p, phi)
  {
  }

  /** Every pin centre point lies on the pin circle of radius ring_d/2. */
  lemma DxfPinCentresOnPitch(m: Math, p: Params, phi: real, trackDisk: bool)
    requires Valid(m) && p.numExternalPins >= 2 && p.ringDiameter != 0.0
    ensures var es := DxfEntities(m, p, phi, trackDisk);
            forall i :: 1 <= i < 1 + p.numExternalPins ==>
              es[i].DxfPoint? && Norm2(es[i].at) == (p.ringDiameter / 2.0) * (p.ringDiameter / 2.0)
  {
    DxfReferenceLayout(m, p, phi, trackDisk);
    forall i | 0 <= i < p.numExternalPins
      ensures Norm2(PinCentre(m, p.numExternalPins, p.ringDiameter, i)) == (p.ringDiameter / 2.0) * (p.ringDiameter / 2.0)
    {
      PolarNorm(m, p.ringDiameter / 2.0, SpacedAngle(m, i, p.numExternalPins));
    }
  }

  /** With the seats turned by -phi/L (the corrected export), each DXF output
      pin circle is the displayed pin outline and each DXF hole the displayed
      hole outline: same centre, same radius; likewise the bore and, when it
      is drawn, the eccentric cam. */
  lemma DxfMatchesDisplay(m: Math, p: Params, phi: real)
    requires Valid(m) && p.numExternalPins >= 2 && p.ringDiameter != 0.0
    ensures var no, ne := p.numOutputPins, p.numExternalPins;
            var rd := p.outputDiskDiameter / 2.0;
            var holeR := HoleRadius(p.outputPinDiameter, p.eccentricity, p.tolerance);
            forall i :: 0 <= i < no ==>
              && OutputSeat(m, p, phi, i, true) == SeatCentre(m, no, ne, rd, phi, i)
              && OnCircle(OutputPinCurves(m, no, ne, p.outputPinDiameter / 2.0, rd, phi)[i],
                          OutputSeat(m, p, phi, i, true), p.outputPinDiameter / 2.0)
              && OnCircle(HoleCurves(m, p.eccentricity, no, ne, holeR, rd, phi)[i],
                          Add(OutputSeat(m, p, phi, i, true), DiskCentre(m, p.eccentricity, phi)), holeR)
    ensures OnCircle(Camshaft(m, p.camshaftDiameter, phi, p.tolerance), Origin, p.camshaftDiameter / 2.0 + p.tolerance)
    ensures OnCircle(EccentricCamshaft(m, p.eccentricity, p.camshaftDiameter, phi), DiskCentre(m, p.eccentricity, phi),
                     ShaftRadius(p.camshaftDiameter, p.eccentricity))
  {
    var no, ne := p.numOutputPins, p.numExternalPins;
    var rd := p.outputDiskDiameter / 2.0;
    var holeR := HoleRadius(p.outputPinDiameter, p.eccentricity, p.tolerance);
    PinsAndHoles(m, p.eccentricity, no, ne, p.outputPinDiameter / 2.0, holeR, rd, phi);
    forall i | 0 <= i < no
      ensures OutputSeat(m, p, phi, i, true) == SeatCentre(m, no, ne, rd, phi, i)
    {
    }
    CircleCurveOnCircle(m, Origin, CamHoleDiameter(p.camshaftDiameter, p.tolerance) / 2.0);
    CircleCurveOnCircle(m, Eccentric(m, p.eccentricity, phi), ShaftRadius(p.camshaftDiameter, p.eccentricity));
  }

  /** As written, export_to_dxf places output pin 0 at (Rd, 0) and its hole at
      (Rd, 0) plus the eccentric, while the disk spline beside them is turned by
      -phi/L. Whenever that turn is not a whole revolution (cos(-phi/L) != 1)
      and Rd != 0, the as-written pin and hole are away from the seat the disk
      carries them on (the displayed ones), and the corrected ones are on it. */
  lemma DxfPinsLagDisk(m: Math, p: Params, phi: real)
    requires Valid(m) && p.numExternalPins >= 2 && p.numOutputPins >= 1
    requires p.outputDiskDiameter != 0.0
    requires m.cos(DiskRotation(p.numExternalPins, phi)) != 1.0
    ensures var seat := SeatCentre(m, p.numOutputPins, p.numExternalPins, p.outputDiskDiameter / 2.0, phi, 0);
            var centre := DiskCentre(m, p.eccentricity, phi);
            && OutputSeat(m, p, phi, 0, false) != seat
            && Add(OutputSeat(m, p, phi, 0, false), centre) != Add(seat, centre)
            && OutputSeat(m, p, phi, 0, true) == seat
  {
    var rd := p.outputDiskDiameter / 2.0;
    var rot := DiskRotation(p.numExternalPins, phi);
    assert SpacedAngle(m, 0, p.numOutputPins) == 0.0;
    Unit(m, 0.0);
    assert m.sin(0.0) * m.sin(0.0) == 0.0;
    SquareBound(m.sin(0.0), 0.0);
    SquareBound(-m.sin(0.0), 0.0);
    var asWritten := OutputSeat(m, p, phi, 0, false);
    assert asWritten == Point(rd, 0.0);
    var seat := SeatCentre(m, p.numOutputPins, p.numExternalPins, rd, phi, 0);
    assert seat == Point(rd * m.cos(rot), rd * m.sin(rot));
    assert rd * m.cos(rot) != rd;
  }
}
