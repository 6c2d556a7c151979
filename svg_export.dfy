/** export_to_svg of cycloidal_Gear_generator_V1-5.py: every display curve
    becomes one closed SVG path, in a fixed order, inside a y-flipped group.
    The lines are returned instead of being joined and written to a file. */
module SvgExport {
  import opened RealMath
  import opened Generators

  /** Number formatting: `fixed3` is Python's `:.3f`, `repr` is `str` of a float. */
  datatype Format = Format(fixed3: real -> string, repr: real -> string)

  // ---------------------------------------------------------------- points_to_path

  /** The path commands points_to_path emits. */
  datatype PathCommand = MoveTo(p: Point) | LineTo(p: Point) | ClosePath

  function CommandText(f: Format, c: PathCommand): string
  {
    match c
    case MoveTo(p) => "M " + f.fixed3(p.x) + "," + f.fixed3(p.y)
    case LineTo(p) => " L " + f.fixed3(p.x) + "," + f.fixed3(p.y)
    case ClosePath => " Z"
  }

  /** The text of a command list, one command after the other. */
  function Render(f: Format, cmds: seq<PathCommand>): string
  {
    if |cmds| == 0 then "" else Render(f, cmds[..|cmds| - 1]) + CommandText(f, cmds[|cmds| - 1])
  }

  /** The commands for a point list: move to the first point, a line to each
      later point in input order, then close the path. */
  function PathCommands(points: Curve): (cmds: seq<PathCommand>)
    requires |points| > 0
    ensures |cmds| == |points| + 1
    ensures cmds[0] == MoveTo(points[0])
    ensures forall k :: 1 <= k < |points| ==> cmds[k] == LineTo(points[k])
    ensures cmds[|points|] == ClosePath
  {
    [MoveTo(points[0])] + seq(|points| - 1, k requires 0 <= k < |points| - 1 => LineTo(points[k + 1])) + [ClosePath]
  }

  /** The text points_to_path returns. */
  function PathText(f: Format, points: Curve): string
    requires |points| > 0
  {
    Render(f, PathCommands(points))
  }

  /** points_to_path: "M x0,y0", then " L x,y" for each later point, then " Z". */
  method PointsToPath(f: Format, points: Curve) returns (path: string)
    requires |points| > 0
    ensures path == PathText(f, points)
  {
    path := "M " + f.fixed3(points[0].x) + "," + f.fixed3(points[0].y);
    var i := 1;
    while i < |points|
      invariant 1 <= i <= |points|
      invariant path == OpenPath(f, points, i)
    {
      var p := points[i];
      path := path + (" L " + f.fixed3(p.x) + "," + f.fixed3(p.y));
      i := i + 1;
    }
    ClosedPath(f, points);
    path := path + " Z";
  }

  /** The text of the path through points[..i], not yet closed. */
  function OpenPath(f: Format, points: Curve, i: nat): string
    requires 1 <= i <= |points|
  {
    if i == 1 then CommandText(f, MoveTo(points[0]))
    else OpenPath(f, points, i - 1) + CommandText(f, LineTo(points[i - 1]))
  }

  lemma {:induction false} OpenPathRender(f: Format, points: Curve, i: nat)
    requires 1 <= i <= |points|
    ensures OpenPath(f, points, i) == Render(f, PathCommands(points)[..i])
  {
    var cmds := PathCommands(points);
    RenderSnoc(f, cmds, i - 1);
    if i == 1 {
      assert Render(f, cmds[..0]) == [];
    } else {
      OpenPathRender(f, points, i - 1);
      assert cmds[i - 1] == LineTo(points[i - 1]);
    }
  }

  /** " Z" after the open path through every point is the path text. */
  lemma ClosedPath(f: Format, points: Curve)
    requires |points| > 0
    ensures OpenPath(f, points, |points|) + " Z" == PathText(f, points)
  {
    var cmds := PathCommands(points);
    OpenPathRender(f, points, |points|);
    RenderSnoc(f, cmds, |points|);
    assert cmds[..|points| + 1] == cmds;
  }

  lemma RenderSnoc(f: Format, cmds: seq<PathCommand>, i: nat)
    requires i < |cmds|
    ensures Render(f, cmds[..i + 1]) == Render(f, cmds[..i]) + CommandText(f, cmds[i])
  {
    assert cmds[..i + 1][..i] == cmds[..i];
  }

  /** The points a command list visits, in order. */
  function Vertices(cmds: seq<PathCommand>): seq<Point>
  {
    if |cmds| == 0 then []
    else
      Vertices(cmds[..|cmds| - 1]) +
      match cmds[|cmds| - 1]
      case MoveTo(p) => [p]
      case LineTo(p) => [p]
      case ClosePath => []
  }

  /** The path visits exactly the input points, in input order: the commands
      lose nothing and add no vertex. */
  lemma {:induction false} PathVisitsPoints(points: Curve)
    requires |points| > 0
    ensures Vertices(PathCommands(points)) == points
  {
    var cmds := PathCommands(points);
    PrefixVertices(points, |points|);
    assert cmds[..|points| + 1][..|points|] == cmds[..|points|];
    assert cmds[..|points| + 1] == cmds;
  }

  lemma {:induction false} PrefixVertices(points: Curve, i: nat)
    requires 1 <= i <= |points|
    ensures Vertices(PathCommands(points)[..i]) == points[..i]
  {
    var cmds := PathCommands(points);
    if i == 1 {
      assert cmds[..1][..0] == [];
      assert cmds[..1] == [MoveTo(points[0])];
    } else {
      PrefixVertices(points, i - 1);
      assert cmds[..i][..i - 1] == cmds[..i - 1];
      assert cmds[i - 1] == LineTo(points[i - 1]);
      assert points[..i] == points[..i - 1] + [points[i - 1]];
    }
  }

  /** Rendering a concatenation is the concatenation of the renderings. */
  lemma {:induction false} RenderAppend(f: Format, a: seq<PathCommand>, b: seq<PathCommand>)
    ensures Render(f, a + b) == Render(f, a) + Render(f, b)
    decreases |b|
  {
    if |b| == 0 {
      assert a + b == a;
    } else {
      RenderAppend(f, a, b[..|b| - 1]);
      RenderAppendStep(f, a, b);
    }
  }

  lemma RenderAppendStep(f: Format, a: seq<PathCommand>, b: seq<PathCommand>)
    requires |b| > 0
    requires Render(f, a + b[..|b| - 1]) == Render(f, a) + Render(f, b[..|b| - 1])
    ensures Render(f, a + b) == Render(f, a) + Render(f, b)
  {
    LastOfConcat(a, b);
    RenderLast(f, a + b);
    RenderLast(f, b);
    ConcatAssoc(Render(f, a), Render(f, b[..|b| - 1]), CommandText(f, b[|b| - 1]));
  }

  lemma RenderLast(f: Format, s: seq<PathCommand>)
    requires |s| > 0
    ensures Render(f, s) == Render(f, s[..|s| - 1]) + CommandText(f, s[|s| - 1])
  {
  }

  lemma ConcatAssoc<T>(x: seq<T>, y: seq<T>, z: seq<T>)
    ensures (x + y) + z == x + (y + z)
  {
  }

  lemma LastOfConcat<T>(a: seq<T>, b: seq<T>)
    requires |b| > 0
    ensures (a + b)[..|a + b| - 1] == a + b[..|b| - 1]
    ensures (a + b)[|a + b| - 1] == b[|b| - 1]
  {
  }

  /** Every path starts with "M x0,y0", ends with " Z", and what lies between
      is the " L x,y" segments of the later points. */
  lemma PathClosed(f: Format, points: Curve)
    requires |points| > 0
    ensures var first := "M " + f.fixed3(points[0].x) + "," + f.fixed3(points[0].y);
            var path := PathText(f, points);
            && path == first + Render(f, PathCommands(points)[1..|points|]) + " Z"
            && |path| >= |first| + 2
            && path[..|first|] == first
            && path[|path| - 2..] == " Z"
  {
    var first := "M " + f.fixed3(points[0].x) + "," + f.fixed3(points[0].y);
    var mid := Render(f, PathCommands(points)[1..|points|]);
    PathDecomposes(f, points);
    var path := first + mid + " Z";
    assert path[..|first|] == first;
    assert path[|path| - 2..] == " Z";
  }

  lemma PathDecomposes(f: Format, points: Curve)
    requires |points| > 0
    ensures PathText(f, points)
            == ("M " + f.fixed3(points[0].x) + "," + f.fixed3(points[0].y)) + Render(f, PathCommands(points)[1..|points|]) + " Z"
  {
    var cmds := PathCommands(points);
    var n := |points|;
    var head, mid := [cmds[0]], cmds[1..n];
    var first := "M " + f.fixed3(points[0].x) + "," + f.fixed3(points[0].y);
    assert Render(f, head) == first by {
      RenderSnoc(f, cmds, 0);
      assert cmds[..1] == head;
      assert Render(f, cmds[..0]) == [];
    }
    assert Render(f, cmds[..n]) == first + Render(f, mid) by {
      assert cmds[..n] == head + mid;
      RenderAppend(f, head, mid);
    }
    assert Render(f, cmds) == Render(f, cmds[..n]) + " Z" by {
      RenderSnoc(f, cmds, n);
      assert cmds[..n + 1] == cmds;
    }
  }

  // ---------------------------------------------------------------- the document

  /** Stroke colour and width of a path element. */
  datatype Style = Style(stroke: string, width: string)

  const ExternalPinStyle := Style("#666666", "0.5")
  const DiskStyle := Style("#FF4444", "0.8")
  const OutputPinStyle := Style("#44FF44", "0.5")
  const HoleStyle := Style("#FF44FF", "0.5")
  const CamHoleStyle := Style("#4444FF", "0.6")
  const CamStyle := Style("#FFAA00", "0.5")
  const RingStyle := Style("#888888", "0.6")

  const XmlHeader := "<?xml version=\"1.0\" encoding=\"UTF-8\"?>"
  const FlipGroup := "<g transform=\"scale(1,-1)\">"
  const GroupEnd := "</g>"
  const SvgEnd := "</svg>"

  function PathElement(path: string, s: Style): string
  {
    "<path d=\"" + path + "\" fill=\"none\" stroke=\"" + s.stroke + "\" stroke-width=\"" + s.width + "\"/>"
  }

  /** Half the side of the square view box: 10 beyond the housing when it
      is shown, 10 beyond the pin circle otherwise. */
  function MaxRadius(p: Params): real
  {
    if p.showOuterRing then p.ringDiameter / 2.0 + p.outerRingWidth + 10.0 else p.ringDiameter / 2.0 + 10.0
  }

  function ViewBox(f: Format, r: real): string
  {
    f.repr(-r) + " " + f.repr(-r) + " " + f.repr(2.0 * r) + " " + f.repr(2.0 * r)
  }

  function SvgOpen(f: Format, r: real): string
  {
    "<svg xmlns=\"http://www.w3.org/2000/svg\" viewBox=\"" + ViewBox(f, r) + "\">"
  }

  /** A curve with the style it is drawn in. */
  datatype StyledCurve = StyledCurve(curve: Curve, style: Style)

  function Styled(curves: seq<Curve>, s: Style): (items: seq<StyledCurve>)
    ensures |items| == |curves|
    ensures forall k :: 0 <= k < |curves| ==> items[k] == StyledCurve(curves[k], s)
  {
    seq(|curves|, k requires 0 <= k < |curves| => StyledCurve(curves[k], s))
  }

  predicate AllNonEmpty(items: seq<StyledCurve>)
  {
    forall k :: 0 <= k < |items| ==> |items[k].curve| > 0
  }

  /** The path elements of a list of styled curves, in list order. */
  function PathLines(f: Format, items: seq<StyledCurve>): (lines: seq<string>)
    requires AllNonEmpty(items)
    ensures |lines| == |items|
  {
    seq(|items|, k requires 0 <= k < |items| => PathElement(PathText(f, items[k].curve), items[k].style))
  }

  /** The disk path: only the first curve of cycloid_disk's list, if any. */
  function DiskItems(disk: seq<Curve>): seq<StyledCurve>
  {
    if |disk| > 0 then [StyledCurve(disk[0], DiskStyle)] else []
  }

  function ShaftItems(camHole: Curve, cam: Curve): seq<StyledCurve>
  {
    [StyledCurve(camHole, CamHoleStyle), StyledCurve(cam, CamStyle)]
  }

  function RingItems(showRing: bool, ringInner: Curve, ringOuter: Curve): seq<StyledCurve>
  {
    if showRing then [StyledCurve(ringInner, RingStyle), StyledCurve(ringOuter, RingStyle)] else []
  }

  /** The drawing order of export_to_svg: external pins, the disk, output
      pins, holes, the bore, the eccentric shaft, and the housing's two
      profiles when it is shown. */
  function Assemble(pins: seq<Curve>, disk: seq<Curve>, outputPins: seq<Curve>, holes: seq<Curve>,
                    camHole: Curve, cam: Curve, showRing: bool, ringInner: Curve, ringOuter: Curve): seq<StyledCurve>
  {
    Styled(pins, ExternalPinStyle) + DiskItems(disk) + Styled(outputPins, OutputPinStyle) + Styled(holes, HoleStyle)
    + ShaftItems(camHole, cam) + RingItems(showRing, ringInner, ringOuter)
  }

  /** The display curves export_to_svg draws, in drawing order. */
  function SvgCurves(m: Math, p: Params, phi: real): (items: seq<StyledCurve>)
    requires p.numExternalPins >= 2 && p.ringDiameter != 0.0
    ensures AllNonEmpty(items)
  {
    Assemble(PinRingCurves(m, p.numExternalPins, p.ringDiameter, p.pinDiameter),
             CycloidDisk(m, p.eccentricity, p.numExternalPins, p.ringDiameter, p.pinDiameter, phi, p.tolerance),
             OutputPinCurves(m, p.numOutputPins, p.numExternalPins, p.outputPinDiameter / 2.0, p.outputDiskDiameter / 2.0, phi),
             HoleCurves(m, p.eccentricity, p.numOutputPins, p.numExternalPins,
                        HoleRadius(p.outputPinDiameter, p.eccentricity, p.tolerance), p.outputDiskDiameter / 2.0, phi),
             Camshaft(m, p.camshaftDiameter, phi, p.tolerance),
             EccentricCamshaft(m, p.eccentricity, p.camshaftDiameter, phi),
             p.showOuterRing,
             HousingInner(m, p.numExternalPins, p.ringDiameter, p.pinDiameter),
             HousingOuter(m, p.ringDiameter, p.outerRingWidth))
  }

  lemma SvgCurvesAre(m: Math, p: Params, phi: real, pins: seq<Curve>, outputPins: seq<Curve>, holes: seq<Curve>)
    requires p.numExternalPins >= 2 && p.ringDiameter != 0.0
    requires pins == PinRingCurves(m, p.numExternalPins, p.ringDiameter, p.pinDiameter)
    requires outputPins == OutputPinCurves(m, p.numOutputPins, p.numExternalPins, p.outputPinDiameter / 2.0, p.outputDiskDiameter / 2.0, phi)
    requires holes == HoleCurves(m, p.eccentricity, p.numOutputPins, p.numExternalPins,
                                 HoleRadius(p.outputPinDiameter, p.eccentricity, p.tolerance), p.outputDiskDiameter / 2.0, phi)
    ensures SvgCurves(m, p, phi)
            == Assemble(pins, CycloidDisk(m, p.eccentricity, p.numExternalPins, p.ringDiameter, p.pinDiameter, phi, p.tolerance),
                        outputPins, holes, Camshaft(m, p.camshaftDiameter, phi, p.tolerance),
                        EccentricCamshaft(m, p.eccentricity, p.camshaftDiameter, phi), p.showOuterRing,
                        HousingInner(m, p.numExternalPins, p.ringDiameter, p.pinDiameter), HousingOuter(m, p.ringDiameter, p.outerRingWidth))
  {
  }

  /** The document's lines. */
  function SvgLines(m: Math, f: Format, p: Params, phi: real): seq<string>
    requires p.numExternalPins >= 2 && p.ringDiameter != 0.0
  {
    [XmlHeader, SvgOpen(f, MaxRadius(p)), FlipGroup] + PathLines(f, SvgCurves(m, p, phi)) + [GroupEnd, SvgEnd]
  }

  /** One path element per curve, appended in list order. */
  method AppendPaths(f: Format, lines: seq<string>, curves: seq<Curve>, s: Style) returns (out: seq<string>)
    requires forall k :: 0 <= k < |curves| ==> |curves[k]| > 0
    ensures AllNonEmpty(Styled(curves, s))
    ensures out == lines + PathLines(f, Styled(curves, s))
  {
    ghost var items := Styled(curves, s);
    out := lines;
    var i := 0;
    while i < |curves|
      invariant 0 <= i <= |curves|
      invariant |out| == |lines| + i
      invariant out[..|lines|] == lines
      invariant forall k :: 0 <= k < i ==> out[|lines| + k] == PathLines(f, items)[k]
    {
      var path := PointsToPath(f, curves[i]);
      out := out + [PathElement(path, s)];
      i := i + 1;
    }
  }

  lemma PathLinesConcat(f: Format, a: seq<StyledCurve>, b: seq<StyledCurve>)
    requires AllNonEmpty(a) && AllNonEmpty(b)
    ensures AllNonEmpty(a + b)
    ensures PathLines(f, a + b) == PathLines(f, a) + PathLines(f, b)
  {
  }

  /** The external pins' paths, then the disk's. */
  method PinAndDiskPaths(m: Math, f: Format, p: Params, phi: real) returns (lines: seq<string>, ghost items: seq<StyledCurve>)
    requires p.numExternalPins >= 2 && p.ringDiameter != 0.0
    ensures items == Styled(PinRingCurves(m, p.numExternalPins, p.ringDiameter, p.pinDiameter), ExternalPinStyle)
                     + DiskItems(CycloidDisk(m, p.eccentricity, p.numExternalPins, p.ringDiameter, p.pinDiameter, phi, p.tolerance))
    ensures AllNonEmpty(items) && lines == PathLines(f, items)
  {
    var pins := PinRing(m, p.numExternalPins, p.ringDiameter, p.pinDiameter);
    lines := AppendPaths(f, [], pins, ExternalPinStyle);
    items := Styled(pins, ExternalPinStyle);
    var cd := CycloidDisk(m, p.eccentricity, p.numExternalPins, p.ringDiameter, p.pinDiameter, phi, p.tolerance);
    if |cd| > 0 {
      var path := PointsToPath(f, cd[0]);
      lines := lines + [PathElement(path, DiskStyle)];
      PathLinesConcat(f, items, DiskItems(cd));
    }
    items := items + DiskItems(cd);
  }

  /** The output pins' paths, then the holes'. */
  method OutputPaths(m: Math, f: Format, p: Params, phi: real) returns (lines: seq<string>, ghost items: seq<StyledCurve>)
    requires p.numExternalPins >= 2
    ensures items == Styled(OutputPinCurves(m, p.numOutputPins, p.numExternalPins, p.outputPinDiameter / 2.0, p.outputDiskDiameter / 2.0, phi), OutputPinStyle)
                     + Styled(HoleCurves(m, p.eccentricity, p.numOutputPins, p.numExternalPins,
                                         HoleRadius(p.outputPinDiameter, p.eccentricity, p.tolerance), p.outputDiskDiameter / 2.0, phi), HoleStyle)
    ensures AllNonEmpty(items) && lines == PathLines(f, items)
  {
    var ip := InnerPins(m, p.numOutputPins, p.numExternalPins, p.outputPinDiameter, p.outputDiskDiameter, phi);
    var ic := InnerCircles(m, p.eccentricity, p.numOutputPins, p.numExternalPins, p.outputPinDiameter, p.outputDiskDiameter, phi, p.tolerance);
    lines := AppendTwo(f, ip, OutputPinStyle, ic, HoleStyle);
    items := Styled(ip, OutputPinStyle) + Styled(ic, HoleStyle);
  }

  /** Two groups of curves appended one after the other. */
  method AppendTwo(f: Format, a: seq<Curve>, sa: Style, b: seq<Curve>, sb: Style) returns (lines: seq<string>)
    requires forall k :: 0 <= k < |a| ==> |a[k]| > 0
    requires forall k :: 0 <= k < |b| ==> |b[k]| > 0
    ensures AllNonEmpty(Styled(a, sa) + Styled(b, sb))
    ensures lines == PathLines(f, Styled(a, sa) + Styled(b, sb))
  {
    lines := AppendPaths(f, [], a, sa);
    lines := AppendPaths(f, lines, b, sb);
    PathLinesConcat(f, Styled(a, sa), Styled(b, sb));
  }

  /** The bore's and the eccentric shaft's paths, then the housing's two
      profiles when it is shown. */
  method ShaftAndRingPaths(m: Math, f: Format, p: Params, phi: real) returns (lines: seq<string>, ghost items: seq<StyledCurve>)
    requires p.numExternalPins >= 2
    ensures items == ShaftItems(Camshaft(m, p.camshaftDiameter, phi, p.tolerance), EccentricCamshaft(m, p.eccentricity, p.camshaftDiameter, phi))
                     + RingItems(p.showOuterRing, HousingInner(m, p.numExternalPins, p.ringDiameter, p.pinDiameter),
                                 HousingOuter(m, p.ringDiameter, p.outerRingWidth))
    ensures AllNonEmpty(items) && lines == PathLines(f, items)
  {
    var cam := Camshaft(m, p.camshaftDiameter, phi, p.tolerance);
    var camPath := PointsToPath(f, cam);
    var eccCam := EccentricCamshaft(m, p.eccentricity, p.camshaftDiameter, phi);
    var eccPath := PointsToPath(f, eccCam);
    lines := [PathElement(camPath, CamHoleStyle), PathElement(eccPath, CamStyle)];
    ghost var ringInner := HousingInner(m, p.numExternalPins, p.ringDiameter, p.pinDiameter);
    ghost var ringOuter := HousingOuter(m, p.ringDiameter, p.outerRingWidth);
    if p.showOuterRing {
      var innerProfile, outerProfile := OuterRing(m, p.numExternalPins, p.ringDiameter, p.pinDiameter, p.outerRingWidth, p.tolerance);
      var innerPath := PointsToPath(f, innerProfile);
      var outerPath := PointsToPath(f, outerProfile);
      lines := lines + [PathElement(innerPath, RingStyle), PathElement(outerPath, RingStyle)];
    }
    items := ShaftItems(cam, eccCam) + RingItems(p.showOuterRing, ringInner, ringOuter);
    PathLinesConcat(f, ShaftItems(cam, eccCam), RingItems(p.showOuterRing, ringInner, ringOuter));
  }

  /** The path lines of export_to_svg, in drawing order. */
  method ShapePaths(m: Math, f: Format, p: Params, phi: real) returns (lines: seq<string>)
    requires p.numExternalPins >= 2 && p.ringDiameter != 0.0
    ensures lines == PathLines(f, SvgCurves(m, p, phi))
  {
    var a, b, c;
    ghost var ia, ib, ic;
    a, ia := PinAndDiskPaths(m, f, p, phi);
    b, ib := OutputPaths(m, f, p, phi);
    c, ic := ShaftAndRingPaths(m, f, p, phi);
    lines := a + b + c;
    PathLinesConcat(f, ia, ib);
    PathLinesConcat(f, ia + ib, ic);
    SvgCurvesGrouped(m, p, phi);
  }

  lemma SeqGroups<T>(a: seq<T>, b: seq<T>, c: seq<T>, d: seq<T>, e: seq<T>, g: seq<T>)
    ensures a + b + c + d + e + g == (a + b) + (c + d) + (e + g)
  {
  }

  /** SvgCurves in the three groups the exporter draws them in. */
  lemma SvgCurvesGrouped(m: Math, p: Params, phi: real)
    requires p.numExternalPins >= 2 && p.ringDiameter != 0.0
    ensures SvgCurves(m, p, phi)
            == (Styled(PinRingCurves(m, p.numExternalPins, p.ringDiameter, p.pinDiameter), ExternalPinStyle)
                + DiskItems(CycloidDisk(m, p.eccentricity, p.numExternalPins, p.ringDiameter, p.pinDiameter, phi, p.tolerance)))
               + (Styled(OutputPinCurves(m, p.numOutputPins, p.numExternalPins, p.outputPinDiameter / 2.0, p.outputDiskDiameter / 2.0, phi), OutputPinStyle)
                  + Styled(HoleCurves(m, p.eccentricity, p.numOutputPins, p.numExternalPins,
                                      HoleRadius(p.outputPinDiameter, p.eccentricity, p.tolerance), p.outputDiskDiameter / 2.0, phi), HoleStyle))
               + (ShaftItems(Camshaft(m, p.camshaftDiameter, phi, p.tolerance), EccentricCamshaft(m, p.eccentricity, p.camshaftDiameter, phi))
                  + RingItems(p.showOuterRing, HousingInner(m, p.numExternalPins, p.ringDiameter, p.pinDiameter),
                              HousingOuter(m, p.ringDiameter, p.outerRingWidth)))
  {
    SeqGroups(Styled(PinRingCurves(m, p.numExternalPins, p.ringDiameter, p.pinDiameter), ExternalPinStyle),
              DiskItems(CycloidDisk(m, p.eccentricity, p.numExternalPins, p.ringDiameter, p.pinDiameter, phi, p.tolerance)),
              Styled(OutputPinCurves(m, p.numOutputPins, p.numExternalPins, p.outputPinDiameter / 2.0, p.outputDiskDiameter / 2.0, phi), OutputPinStyle),
              Styled(HoleCurves(m, p.eccentricity, p.numOutputPins, p.numExternalPins,
                                HoleRadius(p.outputPinDiameter, p.eccentricity, p.tolerance), p.outputDiskDiameter / 2.0, phi), HoleStyle),
              ShaftItems(Camshaft(m, p.camshaftDiameter, phi, p.tolerance), EccentricCamshaft(m, p.eccentricity, p.camshaftDiameter, phi)),
              RingItems(p.showOuterRing, HousingInner(m, p.numExternalPins, p.ringDiameter, p.pinDiameter),
                        HousingOuter(m, p.ringDiameter, p.outerRingWidth)));
  }

  /** export_to_svg: the XML header, the svg element with its square view
      box, the y-flipping group, the paths, and the closing tags. */
  method ExportSvg(m: Math, f: Format, p: Params, phi: real) returns (lines: seq<string>)
    requires p.numExternalPins >= 2 && p.ringDiameter != 0.0
    ensures lines == SvgLines(m, f, p, phi)
  {
    var maxRadius := if p.showOuterRing then p.ringDiameter / 2.0 + p.outerRingWidth + 10.0 else p.ringDiameter / 2.0 + 10.0;
    lines := [XmlHeader, SvgOpen(f, maxRadius), FlipGroup];
    var paths := ShapePaths(m, f, p, phi);
    lines := lines + paths;
    lines := lines + [GroupEnd, SvgEnd];
  }
}

module SvgDocument {
  import opened RealMath
  import opened Generators
  import opened SvgExport

  /** Where each group lands in Assemble's list. */
  lemma AssembleOrder(pins: seq<Curve>, disk: seq<Curve>, outputPins: seq<Curve>, holes: seq<Curve>,
                      camHole: Curve, cam: Curve, showRing: bool, ringInner: Curve, ringOuter: Curve)
    requires |disk| == 1 && |holes| == |outputPins|
    ensures var items := Assemble(pins, disk, outputPins, holes, camHole, cam, showRing, ringInner, ringOuter);
            var ne, no := |pins|, |outputPins|;
            && |items| == ne + 2 * no + 3 + (if showRing then 2 else 0)
            && (forall i :: 0 <= i < ne ==> items[i] == StyledCurve(pins[i], ExternalPinStyle))
            && items[ne] == StyledCurve(disk[0], DiskStyle)
            && (forall i :: ne + 1 <= i < ne + 1 + no ==> items[i] == StyledCurve(outputPins[i - ne - 1], OutputPinStyle))
            && (forall i :: ne + 1 + no <= i < ne + 1 + 2 * no ==> items[i] == StyledCurve(holes[i - ne - 1 - no], HoleStyle))
            && items[ne + 2 * no + 1] == StyledCurve(camHole, CamHoleStyle)
            && items[ne + 2 * no + 2] == StyledCurve(cam, CamStyle)
            && (showRing ==>
                  && items[ne + 2 * no + 3] == StyledCurve(ringInner, RingStyle)
                  && items[ne + 2 * no + 4] == StyledCurve(ringOuter, RingStyle))
  {
    var g1 := Styled(pins, ExternalPinStyle) + DiskItems(disk);
    var g2 := Styled(outputPins, OutputPinStyle) + Styled(holes, HoleStyle);
    var g3 := ShaftItems(camHole, cam) + RingItems(showRing, ringInner, ringOuter);
    SeqGroups(Styled(pins, ExternalPinStyle), DiskItems(disk), Styled(outputPins, OutputPinStyle), Styled(holes, HoleStyle),
              ShaftItems(camHole, cam), RingItems(showRing, ringInner, ringOuter));
    ConcatIndex(g1, g2, g3);
    ConcatIndex(Styled(pins, ExternalPinStyle), DiskItems(disk), []);
    ConcatIndex(Styled(outputPins, OutputPinStyle), Styled(holes, HoleStyle), []);
    assert g1 + [] == g1 && g2 + [] == g2;
  }

  /** export_to_svg writes the XML header, the svg element, the flipping
      group, one path per curve in drawing order (Ne + 2 No + 3 paths, and 2
      more with the housing), and the two closing tags; every path begins
      with "M" at its curve's first point and ends with " Z". */
  lemma SvgLayout(m: Math, f: Format, p: Params, phi: real)
    requires p.numExternalPins >= 2 && p.ringDiameter != 0.0
    ensures var lines := SvgLines(m, f, p, phi);
            var items := SvgCurves(m, p, phi);
            var paths := p.numExternalPins + 2 * p.numOutputPins + 3 + (if p.showOuterRing then 2 else 0);
            && |lines| == paths + 5
            && lines[0] == XmlHeader
            && lines[1] == SvgOpen(f, MaxRadius(p))
            && lines[2] == FlipGroup
            && lines[paths + 3] == GroupEnd
            && lines[paths + 4] == SvgEnd
            && forall k :: 0 <= k < paths ==>
                 var path := PathText(f, items[k].curve);
                 && lines[3 + k] == PathElement(path, items[k].style)
                 && path[..2] == "M "
                 && path[|path| - 2..] == " Z"
  {
    var items := SvgCurves(m, p, phi);
    SvgCurveCount(m, p, phi);
    ConcatIndex([XmlHeader, SvgOpen(f, MaxRadius(p)), FlipGroup], PathLines(f, items), [GroupEnd, SvgEnd]);
    PathsClosed(f, items);
  }

  lemma SvgCurveCount(m: Math, p: Params, phi: real)
    requires p.numExternalPins >= 2 && p.ringDiameter != 0.0
    ensures |SvgCurves(m, p, phi)| == p.numExternalPins + 2 * p.numOutputPins + 3 + (if p.showOuterRing then 2 else 0)
  {
    SvgCurvesGrouped(m, p, phi);
  }

  lemma PathsClosed(f: Format, items: seq<StyledCurve>)
    requires AllNonEmpty(items)
    ensures forall k :: 0 <= k < |items| ==>
              var path := PathText(f, items[k].curve);
              path[..2] == "M " && path[|path| - 2..] == " Z"
  {
    forall k | 0 <= k < |items|
      ensures var path := PathText(f, items[k].curve);
              path[..2] == "M " && path[|path| - 2..] == " Z"
    {
      var c := items[k].curve;
      PathClosed(f, c);
      var first := "M " + f.fixed3(c[0].x) + "," + f.fixed3(c[0].y);
      var path := PathText(f, c);
      assert path[..2] == path[..|first|][..2];
      assert first[..2] == "M ";
    }
  }

  lemma CoordinateBound(q: Point, a: real)
    requires 0.0 <= a && Norm2(q) == a * a
    ensures -a <= q.x <= a && -a <= q.y <= a
  {
    SquareBound(q.x, a);
    SquareBound(-q.x, a);
    SquareBound(q.y, a);
    SquareBound(-q.y, a);
  }

  /** The square view box [-r, r]² holds the drawing's outer boundary with a
      margin of 10: the housing's outer circle when it is shown, the circle
      of external pin centres otherwise. */
  lemma ViewBoxMargin(m: Math, p: Params)
    requires Valid(m) && p.numExternalPins >= 1 && p.ringDiameter >= 0.0 && p.outerRingWidth >= 0.0
    ensures var r := MaxRadius(p);
            && (p.showOuterRing ==>
                  forall k :: 0 <= k < CircleSamples ==>
                    var q := HousingOuter(m, p.ringDiameter, p.outerRingWidth)[k];
                    -(r - 10.0) <= q.x <= r - 10.0 && -(r - 10.0) <= q.y <= r - 10.0)
            && (!p.showOuterRing ==>
                  forall i :: 0 <= i < p.numExternalPins ==>
                    var q := PinCentre(m, p.numExternalPins, p.ringDiameter, i);
                    -(r - 10.0) <= q.x <= r - 10.0 && -(r - 10.0) <= q.y <= r - 10.0)
  {
    var r := MaxRadius(p);
    if p.showOuterRing {
      var c := HousingOuter(m, p.ringDiameter, p.outerRingWidth);
      var a := p.ringDiameter / 2.0 + p.outerRingWidth;
      CircleCurveOnCircle(m, Origin, a);
      forall k | 0 <= k < CircleSamples
        ensures -(r - 10.0) <= c[k].x <= r - 10.0 && -(r - 10.0) <= c[k].y <= r - 10.0
      {
        assert Sub(c[k], Origin) == c[k];
        CoordinateBound(c[k], a);
      }
    } else {
      var a := p.ringDiameter / 2.0;
      forall i | 0 <= i < p.numExternalPins
        ensures var q := PinCentre(m, p.numExternalPins, p.ringDiameter, i);
                -(r - 10.0) <= q.x <= r - 10.0 && -(r - 10.0) <= q.y <= r - 10.0
      {
        PolarNorm(m, a, SpacedAngle(m, i, p.numExternalPins));
        CoordinateBound(PinCentre(m, p.numExternalPins, p.ringDiameter, i), a);
      }
    }
  }
}
