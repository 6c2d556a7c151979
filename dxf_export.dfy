/** export_to_dxf of cycloidal_Gear_generator_V1-5.py, with the drawing as a
    list of entity records instead of ezdxf calls. */
module DxfExport {
  import opened RealMath
  import opened Generators

  /** A layer of the drawing and its colour index. */
  datatype Layer = Layer(name: string, colour: nat)

  /** The eight layers export_to_dxf configures, in configured order. */
  const LayerConfig: seq<Layer> := [
    Layer("CYCLOID_DISK", 1),
    Layer("OUTPUT_PINS", 3),
    Layer("OUTPUT_HOLES", 6),
    Layer("CAMSHAFT_HOLE", 5),
    Layer("ECCENTRIC_CAM", 2),
    Layer("OUTER_RING", 8),
    Layer("PIN_CENTERS", 7),
    Layer("CENTER_AXIS", 4)
  ]

  const DxfVersion := "R2010"

  /** Resolution of the exported housing and disk. */
  const SilhouettePointsPerPin: nat := 30
  const SplinePointsPerLobe: nat := 60

  /** The ray-casting sentinel for a direction that misses the nearest pin. */
  const RayMiss: real := 1000000000.0

  /** The entities export_to_dxf adds to model space. A spline's points are
      the x, y of its (x, y, 0) control points. */
  datatype Entity =
    | DxfPoint(layer: string, at: Point)
    | Circle(layer: string, centre: Point, radius: real)
    | Polyline(layer: string, vertices: seq<Point>, closed: bool)
    | Spline(layer: string, points: seq<Point>, closed: bool)

  datatype Drawing = Drawing(version: string, layers: seq<Layer>, entities: seq<Entity>)

  /** export_to_dxf either saves a drawing or fails with ImportError when the
      ezdxf library is missing. */
  datatype Outcome = Exported(drawing: Drawing) | MissingLibrary

  // ---------------------------------------------------------------- layers

  predicate HasLayer(layers: seq<Layer>, name: string)
  {
    exists k :: 0 <= k < |layers| && layers[k].name == name
  }

  /** The layer table after adding each configured layer whose name is not
      there yet, in order. */
  function WithLayers(layers: seq<Layer>, config: seq<Layer>): seq<Layer>
    decreases |config|
  {
    if |config| == 0 then layers
    else
      var next := if HasLayer(layers, config[0].name) then layers else layers + [config[0]];
      WithLayers(next, config[1..])
  }

  /** The layer loop of export_to_dxf. */
  method AddLayers(layers: seq<Layer>, config: seq<Layer>) returns (result: seq<Layer>)
    ensures result == WithLayers(layers, config)
  {
    result := layers;
    var i := 0;
    while i < |config|
      invariant 0 <= i <= |config|
      invariant WithLayers(result, config[i..]) == WithLayers(layers, config)
    {
      assert config[i..][1..] == config[i + 1..];
      if !HasLayer(result, config[i].name) {
        result := result + [config[i]];
      }
      i := i + 1;
    }
  }

  /** Adding layers keeps the ones already there, and afterwards every
      configured name is present. */
  lemma {:induction false} WithLayersContains(layers: seq<Layer>, config: seq<Layer>)
    ensures |WithLayers(layers, config)| >= |layers|
    ensures WithLayers(layers, config)[..|layers|] == layers
    ensures forall k :: 0 <= k < |config| ==> HasLayer(WithLayers(layers, config), config[k].name)
    decreases |config|
  {
    if |config| > 0 {
      var next := if HasLayer(layers, config[0].name) then layers else layers + [config[0]];
      WithLayersContains(next, config[1..]);
      var r := WithLayers(layers, config);
      assert r == WithLayers(next, config[1..]);
      assert r[..|layers|] == layers by {
        assert next[..|layers|] == layers;
        assert r[..|next|][..|layers|] == r[..|layers|];
      }
      assert HasLayer(next, config[0].name) by {
        if !HasLayer(layers, config[0].name) {
          assert next[|layers|].name == config[0].name;
        }
      }
      assert HasLayer(r, config[0].name) by {
        var k :| 0 <= k < |next| && next[k].name == config[0].name;
        assert r[k] == r[..|next|][k];
      }
      forall k | 1 <= k < |config|
        ensures HasLayer(r, config[k].name)
      {
        assert config[k] == config[1..][k - 1];
      }
    }
  }

  /** On a table holding none of the configured names, all eight layers are
      added, in the configured order. */
  lemma {:induction false} WithLayersFresh(layers: seq<Layer>, config: seq<Layer>)
    requires forall k :: 0 <= k < |config| ==> !HasLayer(layers, config[k].name)
    requires forall j, k :: 0 <= j < k < |config| ==> config[j].name != config[k].name
    ensures WithLayers(layers, config) == layers + config
    decreases |config|
  {
    if |config| > 0 {
      WithLayersAddFirst(layers, config);
      FreshRest(layers, config);
      WithLayersFresh(layers + [config[0]], config[1..]);
      SnocThenRest(layers, config);
    }
  }

  /** A first configured layer that is not in the table yet is appended. */
  lemma WithLayersAddFirst(layers: seq<Layer>, config: seq<Layer>)
    requires |config| > 0 && !HasLayer(layers, config[0].name)
    ensures WithLayers(layers, config) == WithLayers(layers + [config[0]], config[1..])
  {
  }

  lemma SnocThenRest(layers: seq<Layer>, config: seq<Layer>)
    requires |config| > 0
    ensures (layers + [config[0]]) + config[1..] == layers + config
  {
    assert config == [config[0]] + config[1..];
  }

  /** After adding the first configured layer, the rest are still fresh and distinct. */
  lemma FreshRest(layers: seq<Layer>, config: seq<Layer>)
    requires |config| > 0
    requires forall k :: 0 <= k < |config| ==> !HasLayer(layers, config[k].name)
    requires forall j, k :: 0 <= j < k < |config| ==> config[j].name != config[k].name
    ensures forall k :: 0 <= k < |config[1..]| ==> !HasLayer(layers + [config[0]], config[1..][k].name)
    ensures forall j, k :: 0 <= j < k < |config[1..]| ==> config[1..][j].name != config[1..][k].name
  {
    var rest := config[1..];
    forall k | 0 <= k < |rest|
      ensures !HasLayer(layers + [config[0]], rest[k].name)
    {
      assert rest[k] == config[k + 1];
      assert config[0].name != config[k + 1].name;
      HasLayerSnoc(layers, config[0], config[k + 1].name);
    }
    forall j, k | 0 <= j < k < |rest|
      ensures rest[j].name != rest[k].name
    {
      assert rest[j] == config[j + 1] && rest[k] == config[k + 1];
    }
  }

  lemma HasLayerSnoc(layers: seq<Layer>, l: Layer, name: string)
    ensures HasLayer(layers + [l], name) <==> HasLayer(layers, name) || l.name == name
  {
    if HasLayer(layers, name) {
      var k :| 0 <= k < |layers| && layers[k].name == name;
      assert (layers + [l])[k] == layers[k];
    }
    if l.name == name {
      assert (layers + [l])[|layers|] == l;
    }
    if HasLayer(layers + [l], name) {
      var k :| 0 <= k < |layers + [l]| && (layers + [l])[k].name == name;
      if k < |layers| {
        assert layers[k] == (layers + [l])[k];
      }
    }
  }

  /** Running the layer loop again adds nothing. */
  lemma WithLayersIdempotent(layers: seq<Layer>, config: seq<Layer>)
    ensures WithLayers(WithLayers(layers, config), config) == WithLayers(layers, config)
  {
    WithLayersContains(layers, config);
    AllPresent(WithLayers(layers, config), config);
  }

  lemma {:induction false} AllPresent(layers: seq<Layer>, config: seq<Layer>)
    requires forall k :: 0 <= k < |config| ==> HasLayer(layers, config[k].name)
    ensures WithLayers(layers, config) == layers
    decreases |config|
  {
    if |config| > 0 {
      forall k | 0 <= k < |config[1..]|
        ensures HasLayer(layers, config[1..][k].name)
      {
        assert config[1..][k] == config[k + 1];
      }
      AllPresent(layers, config[1..]);
    }
  }

  lemma LayerNamesDistinct()
    ensures forall j, k :: 0 <= j < k < |LayerConfig| ==> LayerConfig[j].name != LayerConfig[k].name
  {
  }

  // ---------------------------------------------------------------- the merged silhouette

  /** The angular spacing of the external pins. */
  function PinStep(m: Math, numPins: nat): real
    requires numPins >= 1
  {
    2.0 * m.pi / (numPins as real)
  }

  /** The angle of the pin nearest to direction theta: round(theta / step) steps. */
  function NearestPinAngle(m: Math, numPins: nat, theta: real): real
    requires numPins >= 1
  {
    (RoundHalfEven(theta / PinStep(m, numPins)) as real) * PinStep(m, numPins)
  }

  /** u.c for the unit direction u at theta. */
  function RayDot(m: Math, c: Point, theta: real): real
  {
    c.x * m.cos(theta) + c.y * m.sin(theta)
  }

  /** The discriminant of |r u - c|² = rp² in r. */
  function RayDiscriminant(m: Math, c: Point, pinRadius: real, theta: real): real
  {
    RayDot(m, c, theta) * RayDot(m, c, theta) - (Norm2(c) - pinRadius * pinRadius)
  }

  /** The near root when the ray meets the circle in front of the origin,
      the sentinel otherwise. */
  function NearHit(m: Math, c: Point, pinRadius: real, theta: real): real
  {
    var discriminant := RayDiscriminant(m, c, pinRadius, theta);
    if discriminant >= 0.0 && RayDot(m, c, theta) - m.sqrt(discriminant) > 0.0
    then RayDot(m, c, theta) - m.sqrt(discriminant)
    else RayMiss
  }

  /** The ray from the origin along theta against the nearest pin's circle. */
  function RayPinDistance(m: Math, numPins: nat, ringRadius: real, pinRadius: real, theta: real): real
    requires numPins >= 1
  {
    NearHit(m, Polar(m, ringRadius, NearestPinAngle(m, numPins, theta)), pinRadius, theta)
  }

  /** The silhouette radius: the nearer of the housing wall and the pin. */
  function SilhouetteRadius(m: Math, numPins: nat, ringRadius: real, pinRadius: real, theta: real): real
    requires numPins >= 1
  {
    var rHousing := WallRadius(m, ringRadius, pinRadius, numPins, theta);
    var rPin := RayPinDistance(m, numPins, ringRadius, pinRadius, theta);
    if rPin < rHousing then rPin else rHousing
  }

  function SilhouetteAngles(m: Math, numPins: nat): (ts: seq<real>)
    ensures |ts| == SilhouettePointsPerPin * numPins
  {
    LinspaceOpen(0.0, 2.0 * m.pi, SilhouettePointsPerPin * numPins)
  }

  /** The merged outline of housing and pins, one vertex per sample angle. */
  function SilhouettePoints(m: Math, numPins: nat, ringRadius: real, pinRadius: real): (s: seq<Point>)
    requires numPins >= 1
    ensures |s| == SilhouettePointsPerPin * numPins
  {
    var ts := SilhouetteAngles(m, numPins);
    seq(|ts|, k requires 0 <= k < |ts| => Polar(m, SilhouetteRadius(m, numPins, ringRadius, pinRadius, ts[k]), ts[k]))
  }

  /** One sample of the merged outer ring, as the loop body computes it:
      the housing wall radius, the nearest pin's centre, the ray test against
      that pin and the nearer of the two. */
  method SilhouetteSample(m: Math, numPins: nat, ringRadius: real, pinRadius: real, theta: real) returns (q: Point)
    requires numPins >= 1
    ensures q == Polar(m, SilhouetteRadius(m, numPins, ringRadius, pinRadius, theta), theta)
  {
    var pocketDepth := pinRadius * 0.8;
    var clearanceSpace := pinRadius * 0.8;
    var radiusVariation := pocketDepth + clearanceSpace;
    var pinFactor := m.cos((numPins as real) * theta);
    var rHousing := ringRadius - pocketDepth + radiusVariation * (1.0 - pinFactor) / 2.0;
    assert rHousing == WallRadius(m, ringRadius, pinRadius, numPins, theta);

    var step := 2.0 * m.pi / (numPins as real);
    var pinIdx := RoundHalfEven(theta / step);
    var pinAngle := (pinIdx as real) * step;
    assert step == PinStep(m, numPins);
    assert pinAngle == NearestPinAngle(m, numPins, theta);
    var cx := ringRadius * m.cos(pinAngle);
    var cy := ringRadius * m.sin(pinAngle);
    assert Point(cx, cy) == Polar(m, ringRadius, pinAngle);

    var dotProd := cx * m.cos(theta) + cy * m.sin(theta);
    var distSq := cx * cx + cy * cy;
    var discriminant := dotProd * dotProd - (distSq - pinRadius * pinRadius);
    assert dotProd == RayDot(m, Point(cx, cy), theta);
    assert discriminant == RayDiscriminant(m, Point(cx, cy), pinRadius, theta);
    var rPin := RayMiss;
    if discriminant >= 0.0 {
      var d1 := dotProd - m.sqrt(discriminant);
      if d1 > 0.0 {
        rPin := d1;
      }
    }
    assert rPin == NearHit(m, Point(cx, cy), pinRadius, theta) by {
      var hit := NearHit(m, Point(cx, cy), pinRadius, theta);
      if discriminant >= 0.0 && dotProd - m.sqrt(discriminant) > 0.0 {
        assert hit == dotProd - m.sqrt(discriminant);
      } else {
        assert hit == RayMiss;
      }
    }
    assert rPin == RayPinDistance(m, numPins, ringRadius, pinRadius, theta);

    var finalR := if rPin < rHousing then rPin else rHousing;
    assert finalR == SilhouetteRadius(m, numPins, ringRadius, pinRadius, theta);
    q := Polar(m, finalR, theta);
  }

  /** The sampling loop of the merged outer ring. */
  method Silhouette(m: Math, numPins: nat, ringRadius: real, pinRadius: real) returns (polyPoints: seq<Point>)
    requires numPins >= 1
    ensures polyPoints == SilhouettePoints(m, numPins, ringRadius, pinRadius)
  {
    ghost var spec := SilhouettePoints(m, numPins, ringRadius, pinRadius);
    var numSamples := numPins * SilhouettePointsPerPin;
    var angles := LinspaceOpen(0.0, 2.0 * m.pi, numSamples);
    assert angles == SilhouetteAngles(m, numPins);
    polyPoints := [];
    var k := 0;
    while k < |angles|
      invariant 0 <= k <= |angles|
      invariant |polyPoints| == k
      invariant forall j :: 0 <= j < k ==> polyPoints[j] == spec[j]
    {
      var q := SilhouetteSample(m, numPins, ringRadius, pinRadius, angles[k]);
      polyPoints := polyPoints + [q];
      k := k + 1;
    }
  }

  /** The silhouette never leaves the housing wall: its radius is the
      smaller of the wall radius and the ray distance, so at most the wall. */
  lemma SilhouetteWithinWall(m: Math, numPins: nat, ringRadius: real, pinRadius: real, theta: real)
    requires numPins >= 1
    ensures var r := SilhouetteRadius(m, numPins, ringRadius, pinRadius, theta);
            && r <= WallRadius(m, ringRadius, pinRadius, numPins, theta)
            && r <= RayPinDistance(m, numPins, ringRadius, pinRadius, theta)
            && (r == WallRadius(m, ringRadius, pinRadius, numPins, theta) || r == RayPinDistance(m, numPins, ringRadius, pinRadius, theta))
  {
  }

  /** The ray distance stays at the sentinel unless the discriminant is
      non-negative and the near root positive; when it is not the sentinel it
      is a real hit: the point at that distance along theta lies on the pin
      circle. */
  lemma RayHitsPin(m: Math, c: Point, pinRadius: real, theta: real)
    requires Valid(m)
    ensures var discriminant := RayDiscriminant(m, c, pinRadius, theta);
            var hit := discriminant >= 0.0 && RayDot(m, c, theta) - m.sqrt(discriminant) > 0.0;
            var r := NearHit(m, c, pinRadius, theta);
            && (!hit ==> r == RayMiss)
            && (hit ==> r > 0.0 && Dist2(Polar(m, r, theta), c) == pinRadius * pinRadius)
  {
    var discriminant := RayDiscriminant(m, c, pinRadius, theta);
    if discriminant >= 0.0 && RayDot(m, c, theta) - m.sqrt(discriminant) > 0.0 {
      var r := RayDot(m, c, theta) - m.sqrt(discriminant);
      Root(m, discriminant);
      RayRoot(m, r, theta, c, m.sqrt(discriminant), pinRadius);
    }
  }

  /** A near root r = (u.c) - s of |r u - c|² = rp², with s² the discriminant. */
  lemma RayRoot(m: Math, r: real, theta: real, c: Point, s: real, pinRadius: real)
    requires Valid(m)
    requires r == RayDot(m, c, theta) - s && s * s == RayDiscriminant(m, c, pinRadius, theta)
    ensures Dist2(Polar(m, r, theta), c) == pinRadius * pinRadius
  {
    var u := Point(m.cos(theta), m.sin(theta));
    Unit(m, theta);
    var d := RayDot(m, c, theta);
    assert Polar(m, r, theta) == Scale(r, u);
    NormOfDifference(Scale(r, u), c);
    ScaleNorm(r, u);
    assert Scale(r, u).x * c.x + Scale(r, u).y * c.y == r * d;
    assert Norm2(u) == 1.0;
    var rr := r * r;
    assert rr * 1.0 - 2.0 * (r * d) + Norm2(c) == (r - d) * (r - d) - d * d + Norm2(c);
    assert (r - d) * (r - d) == s * s;
  }

  /** In the direction of pin j itself, the ray meets that pin at R - rp,
      which is nearer than the wall's pocket R - 0.8 rp; so the silhouette
      vertex at every pin lies on the pin, R - rp from the centre. */
  lemma SilhouetteAtPin(m: Math, numPins: nat, ringRadius: real, pinRadius: real, j: nat)
    requires Valid(m) && Periodic(m) && j < numPins
    requires 0.0 < pinRadius < ringRadius
    ensures var theta := SilhouetteAngles(m, numPins)[SilhouettePointsPerPin * j];
            && RayPinDistance(m, numPins, ringRadius, pinRadius, theta) == ringRadius - pinRadius
            && SilhouetteRadius(m, numPins, ringRadius, pinRadius, theta) == ringRadius - pinRadius
            && SilhouettePoints(m, numPins, ringRadius, pinRadius)[SilhouettePointsPerPin * j] == Polar(m, ringRadius - pinRadius, theta)
  {
    var theta := SilhouetteAngles(m, numPins)[SilhouettePointsPerPin * j];
    SampleAtPin(m, numPins, j);
    NearestPinIsPin(m, numPins, j, theta);
    RayAlongPin(m, ringRadius, pinRadius, theta);
    WallAtPinAngle(m, numPins, ringRadius, pinRadius, j, theta);
  }

  lemma NearestPinIsPin(m: Math, numPins: nat, j: nat, theta: real)
    requires Valid(m) && numPins >= 1
    requires theta == (j as real) * PinStep(m, numPins)
    ensures NearestPinAngle(m, numPins, theta) == theta
  {
    var step := PinStep(m, numPins);
    assert step > 0.0;
    assert theta / step == j as real;
    RoundOfInteger(j);
  }

  /** Sample 30 j of the silhouette is at pin j's angle j·2π/N. */
  lemma SampleAtPin(m: Math, numPins: nat, j: nat)
    requires Valid(m) && j < numPins
    ensures SilhouetteAngles(m, numPins)[SilhouettePointsPerPin * j] == (j as real) * PinStep(m, numPins)
  {
    var n := numPins as real;
    var h := SilhouettePointsPerPin as real;
    var x := 2.0 * m.pi;
    var k := SilhouettePointsPerPin * j;
    assert (k as real) == h * (j as real);
    assert SilhouetteAngles(m, numPins)[k] == 0.0 + (k as real) * ((x - 0.0) / (h * n));
    assert (h * (j as real)) * (x / (h * n)) == (j as real) * (x / n) by {
      assert x / (h * n) == (x / n) / h;
    }
  }

  /** Looking straight at a pin centre c = R(cos θ, sin θ): u.c = R, the
      discriminant is rp², and the near root is R - rp. */
  lemma RayAlongPin(m: Math, ringRadius: real, pinRadius: real, theta: real)
    requires Valid(m) && 0.0 < pinRadius < ringRadius
    ensures var c := Polar(m, ringRadius, theta);
            && RayDot(m, c, theta) == ringRadius
            && RayDiscriminant(m, c, pinRadius, theta) == pinRadius * pinRadius
            && NearHit(m, c, pinRadius, theta) == ringRadius - pinRadius
  {
    Unit(m, theta);
    var co, si := m.cos(theta), m.sin(theta);
    var c := Polar(m, ringRadius, theta);
    assert RayDot(m, c, theta) == ringRadius * (co * co + si * si);
    PolarNorm(m, ringRadius, theta);
    SqrtOfSquare(m, pinRadius);
  }

  lemma WallAtPinAngle(m: Math, numPins: nat, ringRadius: real, pinRadius: real, j: nat, theta: real)
    requires Valid(m) && Periodic(m) && j < numPins && pinRadius >= 0.0
    requires theta == (j as real) * PinStep(m, numPins)
    ensures WallRadius(m, ringRadius, pinRadius, numPins, theta) == ringRadius - 0.8 * pinRadius
  {
    assert (numPins as real) * theta == 0.0 + 2.0 * m.pi * j as real by {
      assert (numPins as real) * ((j as real) * (2.0 * m.pi / (numPins as real))) == (j as real) * (2.0 * m.pi);
    }
    PeriodicTurns(m, 0.0, j);
    WallRadiusBounds(m, ringRadius, pinRadius, numPins, theta);
  }

  // ---------------------------------------------------------------- the entities

  function DiskCentre(m: Math, e: real, phi: real): Point
  {
    Polar(m, e, phi)
  }

  /** Output pin i's circle centre. As written, the pins are not turned
      with the disk; `trackDisk` turns them by -phi/L as the display does. */
  function OutputSeat(m: Math, p: Params, phi: real, i: nat, trackDisk: bool): Point
    requires p.numOutputPins > 0 && p.numExternalPins != 1
  {
    var seat := Polar(m, p.outputDiskDiameter / 2.0, SpacedAngle(m, i, p.numOutputPins));
    if trackDisk then Rotate(m, seat, DiskRotation(p.numExternalPins, phi)) else seat
  }

  function PinCentreEntities(m: Math, p: Params): (es: seq<Entity>)
    ensures |es| == p.numExternalPins
  {
    seq(p.numExternalPins, i requires 0 <= i < p.numExternalPins =>
      DxfPoint("PIN_CENTERS", PinCentre(m, p.numExternalPins, p.ringDiameter, i)))
  }

  function RingEntities(m: Math, p: Params): seq<Entity>
    requires p.numExternalPins >= 1
  {
    if p.showOuterRing then
      [Polyline("OUTER_RING", SilhouettePoints(m, p.numExternalPins, p.ringDiameter / 2.0, p.pinDiameter / 2.0), true),
       Circle("OUTER_RING", Origin, p.ringDiameter / 2.0 + p.outerRingWidth)]
    else []
  }

  function OutputPinEntities(m: Math, p: Params, phi: real, trackDisk: bool): (es: seq<Entity>)
    requires p.numExternalPins != 1
    ensures |es| == p.numOutputPins
  {
    seq(p.numOutputPins, i requires 0 <= i < p.numOutputPins =>
      Circle("OUTPUT_PINS", OutputSeat(m, p, phi, i, trackDisk), p.outputPinDiameter / 2.0))
  }

  function HoleEntities(m: Math, p: Params, phi: real, trackDisk: bool): (es: seq<Entity>)
    requires p.numExternalPins != 1
    ensures |es| == p.numOutputPins
  {
    seq(p.numOutputPins, i requires 0 <= i < p.numOutputPins =>
      Circle("OUTPUT_HOLES", Add(OutputSeat(m, p, phi, i, trackDisk), DiskCentre(m, p.eccentricity, phi)),
             HoleRadius(p.outputPinDiameter, p.eccentricity, p.tolerance)))
  }

  function ShaftEntities(m: Math, p: Params, phi: real): seq<Entity>
  {
    var camLobeRadius := ShaftRadius(p.camshaftDiameter, p.eccentricity);
    [Circle("CAMSHAFT_HOLE", Origin, CamHoleDiameter(p.camshaftDiameter, p.tolerance) / 2.0)]
    + (if camLobeRadius > 0.0 then [Circle("ECCENTRIC_CAM", DiskCentre(m, p.eccentricity, phi), camLobeRadius)] else [])
  }

  /** The disk spline: 60 samples per lobe of np.linspace(0, 2π, 60 L), offset
      by pin_d/2 + tol, turned by -phi/L and carried by the eccentric. */
  function DiskSpline(m: Math, p: Params, phi: real): Entity
    requires p.numExternalPins >= 2 && p.ringDiameter != 0.0
  {
    Spline("CYCLOID_DISK",
           DiskCurve(m, p.eccentricity, p.numExternalPins, p.ringDiameter / 2.0, EffectivePinRadius(p.pinDiameter, p.tolerance), phi,
                     SplinePointsPerLobe * (p.numExternalPins - 1)),
           true)
  }

  /** The axis point, the pin centres and, when shown, the merged outer ring. */
  function ReferenceEntities(m: Math, p: Params): seq<Entity>
    requires p.numExternalPins >= 1
  {
    [DxfPoint("CENTER_AXIS", Origin)] + PinCentreEntities(m, p) + RingEntities(m, p)
  }

  /** The output pin circles, then the holes. */
  function OutputEntities(m: Math, p: Params, phi: real, trackDisk: bool): seq<Entity>
    requires p.numExternalPins != 1
  {
    OutputPinEntities(m, p, phi, trackDisk) + HoleEntities(m, p, phi, trackDisk)
  }

  /** The bore, the eccentric cam when its radius is positive, and the disk spline. */
  function TailEntities(m: Math, p: Params, phi: real): seq<Entity>
    requires p.numExternalPins >= 2 && p.ringDiameter != 0.0
  {
    ShaftEntities(m, p, phi) + [DiskSpline(m, p, phi)]
  }

  /** Model space in the order export_to_dxf fills it. */
  function DxfEntities(m: Math, p: Params, phi: real, trackDisk: bool): seq<Entity>
    requires p.numExternalPins >= 2 && p.ringDiameter != 0.0
  {
    ReferenceEntities(m, p) + OutputEntities(m, p, phi, trackDisk) + TailEntities(m, p, phi)
  }

  /** The pins-and-holes loops: one circle per output pin, then one per hole. */
  method OutputCircles(m: Math, p: Params, phi: real, trackDisk: bool) returns (es: seq<Entity>)
    requires p.numExternalPins >= 2
    ensures es == OutputEntities(m, p, phi, trackDisk)
  {
    ghost var pins := OutputPinEntities(m, p, phi, trackDisk);
    ghost var holes := HoleEntities(m, p, phi, trackDisk);
    es := [];
    var i := 0;
    while i < p.numOutputPins
      invariant 0 <= i <= p.numOutputPins
      invariant |es| == i
      invariant forall k :: 0 <= k < i ==> es[k] == pins[k]
    {
      es := es + [Circle("OUTPUT_PINS", OutputSeat(m, p, phi, i, trackDisk), p.outputPinDiameter / 2.0)];
      i := i + 1;
    }
    assert es == pins;
    var holeR := p.outputPinDiameter / 2.0 + p.eccentricity + p.tolerance;
    var j := 0;
    while j < p.numOutputPins
      invariant 0 <= j <= p.numOutputPins
      invariant |es| == p.numOutputPins + j
      invariant es[..p.numOutputPins] == pins
      invariant forall k :: 0 <= k < j ==> es[p.numOutputPins + k] == holes[k]
    {
      var centre := Add(OutputSeat(m, p, phi, j, trackDisk), DiskCentre(m, p.eccentricity, phi));
      es := es + [Circle("OUTPUT_HOLES", centre, holeR)];
      j := j + 1;
    }
  }

  /** The pin-centre loop. */
  method PinCentres(m: Math, p: Params) returns (es: seq<Entity>)
    ensures es == PinCentreEntities(m, p)
  {
    var r := p.ringDiameter / 2.0;
    es := [];
    var i := 0;
    while i < p.numExternalPins
      invariant 0 <= i <= p.numExternalPins
      invariant |es| == i
      invariant forall k :: 0 <= k < i ==> es[k] == PinCentreEntities(m, p)[k]
    {
      var a := SpacedAngle(m, i, p.numExternalPins);
      es := es + [DxfPoint("PIN_CENTERS", Polar(m, r, a))];
      i := i + 1;
    }
  }

  /** The axis point, the pin centres and, when shown, the merged outer ring. */
  method ReferenceAndRing(m: Math, p: Params) returns (es: seq<Entity>)
    requires p.numExternalPins >= 1
    ensures es == ReferenceEntities(m, p)
  {
    es := [DxfPoint("CENTER_AXIS", Origin)];
    var centres := PinCentres(m, p);
    es := es + centres;
    if p.showOuterRing {
      var polyPoints := Silhouette(m, p.numExternalPins, p.ringDiameter / 2.0, p.pinDiameter / 2.0);
      es := es + [Polyline("OUTER_RING", polyPoints, true), Circle("OUTER_RING", Origin, p.ringDiameter / 2.0 + p.outerRingWidth)];
    }
  }

  /** The bore, the eccentric cam when its radius is positive, and the disk spline. */
  method ShaftsAndDisk(m: Math, p: Params, phi: real) returns (es: seq<Entity>)
    requires p.numExternalPins >= 2 && p.ringDiameter != 0.0
    ensures es == TailEntities(m, p, phi)
  {
    var camHoleR := p.camshaftDiameter / 2.0 + p.tolerance;
    es := [Circle("CAMSHAFT_HOLE", Origin, camHoleR)];
    var camLobeR := (p.camshaftDiameter - 2.0 * p.eccentricity) / 2.0;
    if camLobeR > 0.0 {
      es := es + [Circle("ECCENTRIC_CAM", DiskCentre(m, p.eccentricity, phi), camLobeR)];
    }
    es := es + [DiskSpline(m, p, phi)];
  }

  /** export_to_dxf as written: the output pins and holes are placed unturned
      (see DxfPinsLagDisk). The file is not written; the drawing is returned. */
  method ExportDxf(m: Math, p: Params, phi: real, baseLayers: seq<Layer>, libraryAvailable: bool) returns (outcome: Outcome)
    requires p.numExternalPins >= 2 && p.ringDiameter != 0.0
    ensures !libraryAvailable ==> outcome == MissingLibrary
    ensures libraryAvailable ==>
              outcome == Exported(Drawing(DxfVersion, WithLayers(baseLayers, LayerConfig), DxfEntities(m, p, phi, false)))
  {
    outcome := BuildDrawing(m, p, phi, baseLayers, libraryAvailable, false);
  }

  /** export_to_dxf with the output pins and holes turned with the disk, as the
      display draws them (see DxfMatchesDisplay). */
  method ExportDxfCorrected(m: Math, p: Params, phi: real, baseLayers: seq<Layer>, libraryAvailable: bool) returns (outcome: Outcome)
    requires p.numExternalPins >= 2 && p.ringDiameter != 0.0
    ensures !libraryAvailable ==> outcome == MissingLibrary
    ensures libraryAvailable ==>
              outcome == Exported(Drawing(DxfVersion, WithLayers(baseLayers, LayerConfig), DxfEntities(m, p, phi, true)))
  {
    outcome := BuildDrawing(m, p, phi, baseLayers, libraryAvailable, true);
  }

  /** The drawing both exports build; trackDisk says whether pins and holes
      are turned with the disk. */
  method BuildDrawing(m: Math, p: Params, phi: real, baseLayers: seq<Layer>, libraryAvailable: bool, trackDisk: bool)
    returns (outcome: Outcome)
    requires p.numExternalPins >= 2 && p.ringDiameter != 0.0
    ensures !libraryAvailable ==> outcome == MissingLibrary
    ensures libraryAvailable ==>
              outcome == Exported(Drawing(DxfVersion, WithLayers(baseLayers, LayerConfig), DxfEntities(m, p, phi, trackDisk)))
  {
    if !libraryAvailable {
      return MissingLibrary;
    }
    var layers := AddLayers(baseLayers, LayerConfig);
    var a := ReferenceAndRing(m, p);
    var b := OutputCircles(m, p, phi, trackDisk);
    var c := ShaftsAndDisk(m, p, phi);
    outcome := Exported(Drawing(DxfVersion, layers, a + b + c));
  }
}
