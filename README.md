# Cycloidal gearbox generator: geometry and export engine

This project models the geometry and export core of the cycloidal gearbox generator in three versions: V1-5, V1-3 and V1-1. It covers:

- the curve generators: the ring of external pins, the output pins and their holes in the disk, the offset-trochoid disk outline, the camshaft bore, the eccentric shaft and the housing;
- the two exporters of V1-5. The DXF exporter builds its own low-resolution drawing, with a housing "silhouette" ray-cast against the nearest pin. The SVG exporter serialises the display curves through `points_to_path`;
- the panel state every version keeps: the parameters, the phase `phi`, the pause flag and the animation speed. The operations modelled are the even rounding of the external pin count, `normalize_to_pins`, `toggle_pause`, `advance_animation` and `reset_params`.

The files are:

- `real_math.dfy` (module `RealMath`): points and curves over `real`, `np.linspace`, and Python's `round`.
  - Cosine, sine, square root, pi, NaN and `round(…, 1)` are the fields of a `Math` record.
  - Their facts are two predicates, `Valid` (cos² + sin² = 1, |cos| <= 1, the square root, cos 0 = 1) and `Periodic` (period 2π). Lemmas that need a fact require the predicate.
- `generators.dfy` (module `Generators`): the generators of V1-5. V1-3's generators are the same code, so one module serves both. V1-1's `pin_ring` and `eccentric_camshaft` are also these.
- `generators_v11.dfy` (module `GeneratorsV11`): where V1-1 differs.
  - It has no tolerance.
  - The hole radius is `rd + e`.
  - The bore has radius `camshaft_d/2`.
  - The disk is L separate arc segments, with L = N - 1.
- `dxf_export.dfy` (module `DxfExport`): `export_to_dxf`, covering the layer table, the merged silhouette and the entity list. `dxf_document.dfy` (module `DxfDocument`) proves what the drawing holds, entity by entity.
- `svg_export.dfy`: module `SvgExport` holds `points_to_path` and `export_to_svg`. Module `SvgDocument` holds the document layout lemmas.
- `panels.dfy`: module `Controls` holds the shared panel rules. Each version's `SliderPanel` is a class, in modules `PanelV15`, `PanelV13` and `PanelV11`.

The source's loops are methods. Each method is proved equal to a specification function:

- the generators `PinRing`, `OutputPins`, `Holes`, `InnerProfile`, `OuterProfile` and `CycloidDisk11`;
- the DXF layer loop, silhouette loop, pin-centre loop and circle loops;
- the `points_to_path` loop and the SVG path loops.

The properties are lemmas about those functions. The closed-form generators (`cycloid_disk`, `camshaft`, `eccentric_camshaft`) are functions. A curve is a `seq<Point>`; the z = 0 column of the numpy arrays is dropped. A DXF drawing is a version string, a layer table and a list of entity records. An SVG document is its list of lines.

Where numpy divides by a zero tangent length, the disk sample is modelled as the NaN point. `Generators.TangentNonZero` and `Generators.DiskClearance` show that this cannot happen while 0 <= e < R/(L+1).

## Model

| member | source | states |
|---|---|---|
| RealMath.Linspace | cycloidal_Gear_generator_V1-5.py:362 | `np.linspace(lo, hi, n)` has n samples and the first is lo; its own contract says only this, and the range and the last sample are RealMath.LinspaceRange |
| RealMath.LinspaceRange | cycloidal_Gear_generator_V1-5.py:185 | with `endpoint=True`, every sample lies in [lo, hi] and the last one is hi |
| RealMath.LinspaceOpenRange | cycloidal_Gear_generator_V1-5.py:121 | with `endpoint=False`, every sample lies in [lo, hi) |
| RealMath.RoundHalfEven | cycloidal_Gear_generator_V1-5.py:130 | Python's `round` is within 1/2 of its argument and rounds a tie to the even integer |
| RealMath.RoundOfInteger | cycloidal_Gear_generator_V1-5.py:130 | `round` of an integer is that integer |
| RealMath.PeriodicTurns | cycloidal_Gear_generator_V1-5.py:378-379 | cos and sin are unchanged by any whole number of turns |
| Generators.ClearanceMonotone | cycloidal_Gear_generator_V1-5.py:341 | the hole radius `out_pin_d/2 + e + tol`, the bore radius `cam_d/2 + tol` and the offset radius `pin_d/2 + tol` each strictly increase with tol; the hole grows by exactly the change in tol |
| Generators.PinRing | cycloidal_Gear_generator_V1-5.py:305-312 | the pin loop returns one 200-sample circle per pin, pin i being PinRingCurves' curve i |
| Generators.PinRingGeometry | cycloidal_Gear_generator_V1-3.py:27-34 | exactly numPins curves of 200 points; curve i lies on the circle of radius pin_d/2 about a centre at distance ring_d/2 and angle 2πi/numPins, and its last point is its first |
| Generators.PinCurveGeometry | cycloidal_Gear_generator_V1-1.py:9-16 | one pin's curve is a closed circle of radius d/2 about its centre, and the centre is D/2 from the axis |
| Generators.SpacedAngleStep | cycloidal_Gear_generator_V1-5.py:309-310 | neighbouring pin angles are 2π/N apart |
| Generators.CircleCurveClosed | cycloidal_Gear_generator_V1-5.py:306 | a 200-sample circle over [0, 2π] ends where it starts |
| Generators.OutputPins | cycloidal_Gear_generator_V1-5.py:323-326 | the output pin loop returns OutputPinCurves: one 200-point curve per output pin, in pin order |
| Generators.Holes | cycloidal_Gear_generator_V1-5.py:338-344 | the hole loop returns HoleCurves: one 200-point curve per output pin, in pin order |
| Generators.InnerPins | cycloidal_Gear_generator_V1-5.py:315-327 | `inner_pins` takes diameters and draws radius out_pin_d/2 seats at out_disk_d/2 |
| Generators.InnerCircles | cycloidal_Gear_generator_V1-5.py:330-345 | `inner_circles` draws holes of radius out_pin_d/2 + e + tol |
| Generators.PinsAndHoles | cycloidal_Gear_generator_V1-3.py:37-67 | output pin i is a circle of its radius about seat i, which is turned by -phi/L about the origin and not translated; hole i is a circle of its radius about the same seat plus the eccentric vector, so the hole centre is exactly e from the pin centre |
| Generators.CycloidDisk | cycloidal_Gear_generator_V1-5.py:348-382 | `cycloid_disk` returns a list of exactly one curve of 1500 (Ne - 1) points |
| Generators.CycloidDiskClosed | cycloidal_Gear_generator_V1-5.py:362-381 | the one curve of `cycloid_disk` is closed: with t running over [0, 2π] inclusive, its last point equals its first |
| Generators.DiskCurveClosed | cycloidal_Gear_generator_V1-5.py:362-378 | any count >= 2 of offset-trochoid samples over [0, 2π] gives a closed curve, because the inner angle (L + 1) t makes whole turns at t = 2π |
| Generators.OutputOutlinesClosed | cycloidal_Gear_generator_V1-5.py:315-345 | every output pin outline and every hole outline of 200 samples over [0, 2π] is closed |
| Generators.DiskRadii | cycloidal_Gear_generator_V1-5.py:355-356 | rolling radius + stationary radius = R, and (rolling + stationary) / stationary = L + 1 |
| Generators.DegenerateIffStill | cycloidal_Gear_generator_V1-5.py:373-375 | a sample is degenerate (numpy divides by zero) exactly when the tangent (dxa, dya) is zero |
| Generators.OffsetDistance | cycloidal_Gear_generator_V1-5.py:365-375 | when dxa² + dya² > 0, the offset point is exactly the offset distance from the trochoid point, perpendicular to the tangent, on the side of (-dya, dxa) |
| Generators.TangentNonZero | cycloidal_Gear_generator_V1-5.py:367-369 | for 0 <= e < R/(L+1), the trochoid tangent is never zero |
| Generators.CycloidDiskShape | cycloidal_Gear_generator_V1-3.py:82-104 | the one curve has 1500 (Ne - 1) samples, t runs from 0 to 2π inclusive, and sample k is the offset point at t_k, turned by -phi/L and carried by the eccentric |
| Generators.DiskKeepsDistanceFromCentre | cycloidal_Gear_generator_V1-5.py:378-382 | turning by -phi/L keeps every well-defined sample at its profile point's distance, now measured from (e cos phi, e sin phi) |
| Generators.DiskLobeSymmetry | cycloidal_Gear_generator_V1-5.py:378-379 | advancing phi by L whole turns gives the same disk |
| Generators.CamshaftBore | cycloidal_Gear_generator_V1-5.py:385-392 | the bore is a circle of radius cam_d/2 + tol about the origin, the same for every phi |
| Generators.EccentricShaft | cycloidal_Gear_generator_V1-5.py:395-403 | the eccentric shaft is a circle of radius (cam_d - 2e)/2, which has no tolerance term, about (e cos phi, e sin phi); that centre is e from the axis; the bore radius exceeds the shaft radius by exactly e + tol |
| Generators.EccentricityShared | cycloidal_Gear_generator_V1-3.py:100-124 | the eccentric shaft centre and the disk's translation are the same vector (e cos phi, e sin phi): each well-defined disk sample minus that vector is the profile point turned by -phi/L |
| Generators.DiskClearance | cycloidal_Gear_generator_V1-3.py:95 | while 0 <= e < R/(L+1), every disk sample is well defined and its profile point lies exactly pin_d/2 + tol from the trochoid |
| Generators.WallRadiusBounds | cycloidal_Gear_generator_V1-5.py:433-438 | the housing wall radius lies in [R - 0.8 rp, R + 0.8 rp]; it is R - 0.8 rp where cos(N θ) = 1 and R + 0.8 rp where cos(N θ) = -1 |
| Generators.HousingInner | cycloidal_Gear_generator_V1-5.py:419-446 | the inner profile has 100 numPins + 1 points and its last point is its first |
| Generators.InnerProfile | cycloidal_Gear_generator_V1-5.py:419-446 | the inner profile loop returns HousingInner |
| Generators.OuterProfile | cycloidal_Gear_generator_V1-5.py:449-456 | the outer profile loop returns HousingOuter |
| Generators.OuterRing | cycloidal_Gear_generator_V1-5.py:406-458 | `outer_ring` returns HousingInner and HousingOuter, neither of which depends on the tolerance argument |
| Generators.WallAtPin | cycloidal_Gear_generator_V1-5.py:421-438 | at sample 100 j, pin j's angle, the wall radius is R - 0.8 rp |
| Generators.HousingInnerBounds | cycloidal_Gear_generator_V1-5.py:437-441 | every inner profile point is between R - 0.8 rp and R + 0.8 rp from the axis |
| Generators.HousingProfiles | cycloidal_Gear_generator_V1-5.py:419-456 | the inner profile is closed, has 100 N + 1 points and sits R - 0.8 rp from the axis at every pin; the outer profile is a circle of radius R + ring width |
| GeneratorsV11.InnerPins | cycloidal_Gear_generator_V1-1.py:19-27 | V1-1's output pins, with radius rd at Rd, are OutputPinCurves: turned by -phi/L and not translated |
| GeneratorsV11.InnerCircles | cycloidal_Gear_generator_V1-1.py:30-42 | V1-1's holes are HoleCurves with radius rd + e |
| GeneratorsV11.HolesAndPins11 | cycloidal_Gear_generator_V1-1.py:38 | each V1-1 hole is a circle of radius rd + e about its pin's seat plus the eccentric, so it exceeds the pin by e, with no tolerance |
| GeneratorsV11.CamshaftBore11 | cycloidal_Gear_generator_V1-1.py:74-91 | V1-1's bore has radius camshaft_d/2 and does not depend on phi; the eccentric shaft has radius (camshaft_d - 2e)/2 about (e cos phi, e sin phi), exactly e less than the bore |
| GeneratorsV11.ArcEnds | cycloidal_Gear_generator_V1-1.py:49 | V1-1's segment parameter runs from -π/L to π/L |
| GeneratorsV11.DiskSegments | cycloidal_Gear_generator_V1-1.py:57-70 | there are exactly N - 1 segments |
| GeneratorsV11.CycloidDisk11 | cycloidal_Gear_generator_V1-1.py:45-71 | the lobe loop returns DiskSegments |
| GeneratorsV11.DiskSegmentsShape | cycloidal_Gear_generator_V1-1.py:57-71 | N - 1 curves of 1500 samples each; every well-defined sample of segment i minus (e cos phi, e sin phi) is the profile point turned by i·2π/L - phi/L |
| GeneratorsV11.SegmentPlacement | cycloidal_Gear_generator_V1-1.py:67-68 | sample k of segment i is the offset point turned by i·2π/L - phi/L and translated by (e cos phi, e sin phi) |
| GeneratorsV11.SegmentKeepsDistance | cycloidal_Gear_generator_V1-1.py:67-68 | that placement keeps each well-defined sample at its profile point's distance from (e cos phi, e sin phi) |
| GeneratorsV11.DiskRadii11 | cycloidal_Gear_generator_V1-1.py:53-65 | rc + rm = D/2; while 0 <= e < rm each segment sample is well defined and its offset point is exactly d/2 from the trochoid, with no tolerance term |
| Controls.EvenPinCount | cycloidal_Gear_generator_V1-5.py:674-675 | the rounded pin count is even, at least the slider value and at most one more, and equal to it exactly when the value is even |
| Controls.EvenPinCountLeast | cycloidal_Gear_generator_V1-3.py:295-296 | it is the least even number not below the value, and rounding twice changes nothing |
| Controls.RunMonotone | cycloidal_Gear_generator_V1-5.py:861-865 | with a positive speed every further tick strictly increases phi, a faster speed gets further in the same ticks, speed 60 adds 0.01 per tick, and no number of paused ticks moves phi |
| Controls.NormalizedDiskInsideRing | cycloidal_Gear_generator_V1-3.py:326-333 | for positive pin diameters and N >= 1, the rounded disk diameter is at most the rounded ring diameter, given a rounding that keeps order |
| Controls.RunLinear | cycloidal_Gear_generator_V1-1.py:305-309 | n ticks leave phi as it was while paused, and add n · 0.01 · speed/60 otherwise |
| PanelV15.SliderPanel.constructor | cycloidal_Gear_generator_V1-5.py:572-587 | the panel starts with the default parameters, speed 200, phi = 0 and not paused |
| PanelV15.SliderPanel.SetExternalPins | cycloidal_Gear_generator_V1-5.py:670-682 | the external pin slider stores the even-rounded value and changes nothing else |
| PanelV15.SliderPanel.SetOutputPins | cycloidal_Gear_generator_V1-5.py:670-682 | the output pin slider stores its value unchanged |
| PanelV15.SliderPanel.SetSpeed | cycloidal_Gear_generator_V1-5.py:670-682 | the speed slider stores its value unchanged |
| PanelV15.SliderPanel.NormalizeToPins | cycloidal_Gear_generator_V1-5.py:762-787 | ring_d becomes round(NormalRingDiameter, 1) and disk_d becomes round(2/3 of it, 1); nothing else changes; with positive pins the new disk diameter is at most the new ring diameter |
| PanelV15.SliderPanel.TogglePause | cycloidal_Gear_generator_V1-5.py:789-791 | paused flips; nothing else changes |
| PanelV15.SliderPanel.ResetParams | cycloidal_Gear_generator_V1-5.py:793-809 | the parameters and speed return to the defaults and phi to 0; paused is kept |
| PanelV15.SliderPanel.AdvanceAnimation | cycloidal_Gear_generator_V1-5.py:861-865 | phi is kept while paused and otherwise grows by 0.01 · speed/60 |
| PanelV13.SliderPanel.constructor | cycloidal_Gear_generator_V1-3.py:216-229 | V1-3's defaults, speed 200, phi = 0, not paused |
| PanelV13.SliderPanel.SetExternalPins | cycloidal_Gear_generator_V1-3.py:291-303 | the external pin slider stores the even-rounded value and changes nothing else |
| PanelV13.SliderPanel.SetOutputPins | cycloidal_Gear_generator_V1-3.py:291-303 | the output pin slider stores its value unchanged |
| PanelV13.SliderPanel.SetSpeed | cycloidal_Gear_generator_V1-3.py:291-303 | the speed slider stores its value unchanged |
| PanelV13.SliderPanel.NormalizeToPins | cycloidal_Gear_generator_V1-3.py:317-342 | ring_d and disk_d become the rounded normal diameters; nothing else changes; with positive pins the new disk diameter is at most the new ring diameter |
| PanelV13.SliderPanel.TogglePause | cycloidal_Gear_generator_V1-3.py:344-346 | paused flips; nothing else changes |
| PanelV13.SliderPanel.ResetParams | cycloidal_Gear_generator_V1-3.py:348-362 | the parameters and speed return to V1-3's defaults and phi to 0 |
| PanelV13.SliderPanel.AdvanceAnimation | cycloidal_Gear_generator_V1-3.py:407-411 | phi is kept while paused and otherwise grows by 0.01 · speed/60 |
| PanelV11.SliderPanel.constructor | cycloidal_Gear_generator_V1-1.py:182-194 | V1-1's defaults, speed 60, phi = 0, not paused |
| PanelV11.SliderPanel.SetExternalPins | cycloidal_Gear_generator_V1-1.py:250-262 | the `N` slider stores the even-rounded value and changes nothing else |
| PanelV11.SliderPanel.SetOutputPins | cycloidal_Gear_generator_V1-1.py:250-262 | the `n` slider stores its value unchanged |
| PanelV11.SliderPanel.SetSpeed | cycloidal_Gear_generator_V1-1.py:250-262 | the speed slider stores its value unchanged |
| PanelV11.SliderPanel.TogglePause | cycloidal_Gear_generator_V1-1.py:276-278 | paused flips; nothing else changes |
| PanelV11.SliderPanel.ResetParams | cycloidal_Gear_generator_V1-1.py:280-286 | the parameters and speed return to V1-1's defaults and phi to 0 |
| PanelV11.SliderPanel.AdvanceAnimation | cycloidal_Gear_generator_V1-1.py:305-309 | phi is kept while paused and otherwise grows by 0.01 · speed/60 |
| DxfExport.AddLayers | cycloidal_Gear_generator_V1-5.py:74-87 | the layer loop adds each configured layer whose name is missing, in order (WithLayers) |
| DxfExport.WithLayersContains | cycloidal_Gear_generator_V1-5.py:86-87 | adding layers keeps the existing table as a prefix, and afterwards every configured name is present |
| DxfExport.WithLayersFresh | cycloidal_Gear_generator_V1-5.py:74-87 | on a table with none of the configured names and distinct configured names, the result is the table followed by all configured layers in configured order |
| DxfExport.WithLayersIdempotent | cycloidal_Gear_generator_V1-5.py:86-87 | running the layer loop a second time adds nothing |
| DxfExport.LayerNamesDistinct | cycloidal_Gear_generator_V1-5.py:74-84 | the eight configured layer names are pairwise distinct |
| DxfExport.SilhouettePoints | cycloidal_Gear_generator_V1-5.py:119-151 | the silhouette has 30 Ne vertices |
| DxfExport.SilhouetteSample | cycloidal_Gear_generator_V1-5.py:112-150 | one loop step computes the housing wall radius WallRadius, the nearest pin's centre, the ray test against it (near root or the sentinel 1e9) and gives the polar point at min(r_housing, r_pin), which is SilhouetteRadius |
| DxfExport.Silhouette | cycloidal_Gear_generator_V1-5.py:107-151 | the sampling loop returns SilhouettePoints |
| DxfExport.SilhouetteWithinWall | cycloidal_Gear_generator_V1-5.py:147-148 | the final radius is at most r_housing and at most r_pin, and it is one of the two |
| DxfExport.RayHitsPin | cycloidal_Gear_generator_V1-5.py:134-144 | r_pin stays at 1e9 unless the discriminant is >= 0 and the near root > 0; otherwise r_pin > 0 and the point r_pin along θ lies on the pin circle |
| DxfExport.RayRoot | cycloidal_Gear_generator_V1-5.py:141-144 | the near root (u·c) - √disc solves \|r u - c\|² = rp² |
| DxfExport.SilhouetteAtPin | cycloidal_Gear_generator_V1-5.py:129-148 | at sample 30 j (pin j's angle) r_pin = R - rp, which is nearer than the wall, so the vertex is R - rp from the axis |
| DxfExport.NearestPinIsPin | cycloidal_Gear_generator_V1-5.py:129-131 | at a pin's own angle, the nearest pin angle is that angle |
| DxfExport.SampleAtPin | cycloidal_Gear_generator_V1-5.py:121 | sample 30 j of the silhouette angles is j · 2π/N |
| DxfExport.RayAlongPin | cycloidal_Gear_generator_V1-5.py:134-144 | looking at a pin centre, u·c = R, the discriminant is rp² and the near root is R - rp |
| DxfExport.WallAtPinAngle | cycloidal_Gear_generator_V1-5.py:112-126 | at a pin angle, the wall radius is R - 0.8 rp |
| DxfExport.PinCentres | cycloidal_Gear_generator_V1-5.py:100-104 | the pin centre loop returns PinCentreEntities, Ne points |
| DxfExport.OutputCircles | cycloidal_Gear_generator_V1-5.py:157-170 | the two loops return the output pin circles, then the hole circles |
| DxfExport.ReferenceAndRing | cycloidal_Gear_generator_V1-5.py:96-155 | the axis point, the pin centres and, when shown, the ring polyline and circle |
| DxfExport.ShaftsAndDisk | cycloidal_Gear_generator_V1-5.py:172-206 | the bore, the cam lobe only when its radius is positive, then the disk spline |
| DxfExport.ExportDxf | cycloidal_Gear_generator_V1-5.py:45-209 | a missing library gives the failure outcome; otherwise an R2010 drawing with the layer table and the entities in export order, the output pins and holes placed unturned as the code writes them |
| DxfExport.ExportDxfCorrected | cycloidal_Gear_generator_V1-5.py:157-170 | the same drawing with the output pins and holes turned by -phi/L with the disk, as the display draws them |
| DxfExport.BuildDrawing | cycloidal_Gear_generator_V1-5.py:45-206 | the layer table extended by the export layers, then the reference, ring, output and tail entities in that order, pins turned or not as asked |
| DxfDocument.DxfReferenceLayout | cycloidal_Gear_generator_V1-5.py:96-155 | model space holds 1 + Ne + (2 if ring) + 2 No + TailCount entities: first the origin point on CENTER_AXIS, then Ne pin centre points in order, then, when the ring is shown, the closed polyline of 30 Ne vertices and the circle of radius R + ring width |
| DxfDocument.ReferenceContents | cycloidal_Gear_generator_V1-5.py:96-155 | the same contents, stated on the reference group alone |
| DxfDocument.DxfOutputLayout | cycloidal_Gear_generator_V1-5.py:157-170 | then No output pin circles, then No hole circles |
| DxfDocument.OutputPinEntityAt | cycloidal_Gear_generator_V1-5.py:158-162 | output pin k is an OUTPUT_PINS circle of radius out_pin_d/2 about its seat |
| DxfDocument.HoleEntityAt | cycloidal_Gear_generator_V1-5.py:165-170 | hole k is an OUTPUT_HOLES circle of radius out_pin_d/2 + e + tol about seat k plus the eccentric |
| DxfDocument.DxfTailLayout | cycloidal_Gear_generator_V1-5.py:172-206 | then the bore circle of radius cam_d/2 + tol, the cam circle only when (cam_d - 2e)/2 > 0, and last a closed spline of 60 (Ne - 1) points |
| DxfDocument.DxfSplineClosed | cycloidal_Gear_generator_V1-5.py:180-204 | the disk spline the drawing ends with is closed: t runs over [0, 2π] inclusive, so its last control point equals its first, matching `closed = True` |
| DxfDocument.TailContents | cycloidal_Gear_generator_V1-5.py:172-206 | the same contents, stated on the tail group alone |
| DxfDocument.DxfPinCentresOnPitch | cycloidal_Gear_generator_V1-5.py:100-104 | every pin centre point is at distance R from the axis |
| DxfDocument.DxfMatchesDisplay | cycloidal_Gear_generator_V1-5.py:157-178 | in the corrected export, each output pin and hole circle has the centre and radius of the displayed one, and so do the bore and the cam |
| DxfDocument.DxfPinsLagDisk | cycloidal_Gear_generator_V1-5.py:157-170 | as written, pin 0 and its hole are off the seat the disk carries them on whenever -phi/L is not a whole turn |
| SvgExport.PathCommands | cycloidal_Gear_generator_V1-5.py:243-249 | a move to the first point, a line to each later point in order, then close: \|points\| + 1 commands |
| SvgExport.PointsToPath | cycloidal_Gear_generator_V1-5.py:243-249 | the `path +=` loop returns the text of those commands |
| SvgExport.OpenPathRender | cycloidal_Gear_generator_V1-5.py:245-248 | after i points, the loop's text renders the first i commands |
| SvgExport.ClosedPath | cycloidal_Gear_generator_V1-5.py:249 | appending " Z" to the open path gives the path text |
| SvgExport.PathVisitsPoints | cycloidal_Gear_generator_V1-5.py:243-249 | the commands visit exactly the input points, in input order |
| SvgExport.PathDecomposes | cycloidal_Gear_generator_V1-5.py:243-249 | the path is "M x0,y0", then the rendered line commands for points 1 .. n-1, then " Z" |
| SvgExport.PathClosed | cycloidal_Gear_generator_V1-5.py:243-249 | every path starts with "M x0,y0" and ends with " Z" |
| SvgExport.SvgCurves | cycloidal_Gear_generator_V1-5.py:252-291 | every curve the SVG draws is non-empty |
| SvgExport.SvgCurvesAre | cycloidal_Gear_generator_V1-5.py:252-291 | the SVG curves are the display generators' curves, in drawing order |
| SvgExport.AppendPaths | cycloidal_Gear_generator_V1-5.py:252-255 | one path element per curve is appended, in list order |
| SvgExport.PinAndDiskPaths | cycloidal_Gear_generator_V1-5.py:252-261 | the pin paths, then the first disk curve's path |
| SvgExport.OutputPaths | cycloidal_Gear_generator_V1-5.py:264-273 | the output pin paths, then the hole paths |
| SvgExport.ShaftAndRingPaths | cycloidal_Gear_generator_V1-5.py:276-291 | the bore and cam paths, then the two housing paths only when the ring is shown |
| SvgExport.ShapePaths | cycloidal_Gear_generator_V1-5.py:252-291 | all path lines, in drawing order |
| SvgExport.SvgCurvesGrouped | cycloidal_Gear_generator_V1-5.py:252-291 | the drawn curves are the three groups in sequence |
| SvgExport.ExportSvg | cycloidal_Gear_generator_V1-5.py:213-301 | the document's lines are the header, the svg element, the group, the paths and the closing tags |
| SvgDocument.AssembleOrder | cycloidal_Gear_generator_V1-5.py:252-291 | where each group's curves land in the drawing list, with their styles |
| SvgDocument.SvgLayout | cycloidal_Gear_generator_V1-5.py:229-295 | paths + 5 lines: XML header, svg with the view box of MaxRadius, the scale(1,-1) group, Ne + 2 No + 3 (+2 with the ring) path elements in order, each beginning "M " and ending " Z", then `</g>` and `</svg>` |
| SvgDocument.SvgCurveCount | cycloidal_Gear_generator_V1-5.py:252-291 | the SVG draws Ne + 2 No + 3 curves, and 2 more with the ring |
| SvgDocument.PathsClosed | cycloidal_Gear_generator_V1-5.py:243-249 | every exported path begins with "M " and is closed with " Z" |
| SvgDocument.ViewBoxMargin | cycloidal_Gear_generator_V1-5.py:229-234 | the square view box of half-side R + ring width + 10 (or R + 10 without the ring) holds the outer circle (or the pin centres) with a margin of 10 |

## Left out

- The OpenGL viewer (`GearboxViewer`, `rebuild_items`, `update_geometry`), the Qt widgets, the labels, the message boxes and the `MainWindow` bootstrap are user interface and are not modelled. So are `update_viewer` and `toggle_outer_ring`.
- File dialogs and writes (`doc.saveas`, `open(…).write`) are I/O. The models return the drawing and the SVG lines instead.
- The `ezdxf` library calls are foreign code. The drawing is a list of entity records, and a missing library is one abstract failure outcome.
- IEEE floating point, numpy vectorisation and the exact spacing of `np.linspace` are not modelled. Lengths are reals; cosine, sine, square root and pi are uninterpreted fields of `Math` with only the facts listed above.
- `round(…, 1)` in `normalize_to_pins` is the uninterpreted field `round1`. The `:.3f` and `str` formatting of the SVG is the uninterpreted `Format` record.
- Slider values of float parameters (`round(v / scale, 2)`) are not modelled. Only the integer sliders (pin counts and speed) are.
- The `QTimer` cadence is timing. `AdvanceAnimation` models one tick.
- The z = 0 column of the numpy curves and of the DXF spline control points is dropped. A curve is a sequence of 2-D points.
- Generators.CycloidDisk, Generators.CycloidDiskClosed, DxfExport.ExportDxf, DxfExport.ExportDxfCorrected and SvgExport.ExportSvg: require Ne >= 2 and ring_d != 0. Otherwise the source raises ZeroDivisionError: at R/(L + 1) for Ne = 0, at -phi/L for Ne = 1, and at (rolling + stationary)/stationary for ring_d = 0.
- GeneratorsV11.DiskSegments and GeneratorsV11.CycloidDisk11: require N >= 2 and D != 0. Otherwise V1-1's `cycloid_disk` raises ZeroDivisionError: at RD/(num + 1) for N = 0, at np.pi/num for N = 1, and at (rc + rm)/rm in the lobe loop for D = 0.
- Generators.OutputPins, Generators.Holes, GeneratorsV11.InnerPins and GeneratorsV11.InnerCircles: require Ne != 1 or no output pins. With Ne = 1 the loop body raises ZeroDivisionError at -phi/L; with no output pins the loop never runs and the empty list is modelled.
- Generators.InnerPins and Generators.InnerCircles: require Ne != 1 or no output pins, for the same reason.
- Generators.OuterRing: requires numPins >= 1, because with no pins the source raises IndexError at `inner_points[0]`.
- SvgExport.PointsToPath: requires a non-empty point list, because the source raises IndexError on `points[0]`. Every curve the exporter passes is non-empty (SvgExport.SvgCurves).
- PanelV15.SliderPanel.SetExternalPins, and the same method in PanelV13 and PanelV11: require a non-negative value, because the slider never gives a negative one and the count is a `nat`.
- The check `len(cd) > 0` in `export_to_svg` is always true, since `cycloid_disk` returns one curve. The model draws the first curve.
- The `reset_params` sliders and label refresh are UI. The model keeps only the new parameters, speed and phi.

## Findings

| source | as written | input that shows it | evidently intended | confidence | as-written member | corrected member |
|---|---|---|---|---|---|---|
| cycloidal_Gear_generator_V1-5.py:157-170 | `export_to_dxf` places output pin i at Rd(cos 2πi/No, sin 2πi/No) and its hole there plus the eccentric, with no turn by -phi/L. The disk spline in the same drawing is turned by -phi/L (lines 200-201), and so are the displayed pins and holes (lines 324-325, 342-343). | any phi with cos(-phi/L) != 1 and Rd != 0, e.g. phi = 1, Ne = 24, Rd = 25: pin 0 is exported at (25, 0), but the disk carries it at 25(cos(-1/23), sin(-1/23)) | pins and holes turned by -phi/L about the origin, as the display does, so the exported holes sit in the exported disk | not executed | DxfExport.ExportDxf, DxfDocument.DxfPinsLagDisk | DxfExport.ExportDxfCorrected, DxfDocument.DxfMatchesDisplay |
