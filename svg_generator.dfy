/** The drawing engine (`src/lib/svg-generator.ts`): a generator that appends drawing
    primitives for one design in a fixed order (background, body, straps, pocket,
    dimension lines, colour legend, title), all positioned from the origin (30, 40) cm
    at 4 user units per centimetre. The document is an ordered list of primitives and
    a list of `<pattern>` definitions; turning it into SVG text is not modelled. */
module Drawing {
  import opened Base
  import opened Store
  import opened Patterns

  // ---------------------------------------------------------------------------
  // Primitives

  datatype Point = Point(x: real, y: real)

  /** The commands of an SVG path: M, L, Q and Z. */
  datatype Segment = MoveTo(to: Point) | LineTo(to: Point) | QuadTo(control: Point, to: Point) | ClosePath

  /** A fill or stroke: a colour, `none`, or `url(#id)`. */
  datatype Paint = Color(hex: string) | NoPaint | PatternRef(id: string)

  /** Text content. Numbers are kept as values rather than formatted: a dimension
      label is `<caption><cm>CM/<inches>INCH`, the summary is `<top>×<bottom>×<total>CM`. */
  datatype Label =
    | Plain(text: string)
    | Dimension(caption: string, cm: real, inches: real)
    | Summary(topWidth: real, bottomWidth: real, totalHeight: real)

  datatype Primitive =
    | Rect(x: real, y: real, width: real, height: real, fill: Paint, stroke: Paint, strokeWidth: real, dashed: bool)
    | Path(segments: seq<Segment>, fill: Paint, stroke: Paint, strokeWidth: real, roundCap: bool)
    | Line(from: Point, to: Point, stroke: Paint, strokeWidth: real, roundCap: bool, dashed: bool)
    | Polygon(points: seq<Point>, fill: Paint)
    | Text(content: Label, at: Point, fontSize: nat, centered: bool, bold: bool, fill: Paint, rotation: int)

  /** A generated drawing: canvas size, pattern definitions and the primitives in
      drawing order. */
  datatype Document = Document(width: real, height: real, defs: seq<PatternDef>, elements: seq<Primitive>)

  // ---------------------------------------------------------------------------
  // Units and labels

  /** User units per centimetre. */
  const Scale: real := 4.0

  /** The drawing origin, (30, 40) cm. */
  const OriginX: real := 30.0 * Scale
  const OriginY: real := 40.0 * Scale

  /** `formatDimension`: a caption, the length in centimetres, and the length in inches
      shown to one decimal place. */
  function DimensionLabel(caption: string, cm: real): (l: Label)
    ensures l.Dimension? && l.caption == caption && l.cm == cm
    ensures Abs(l.inches - CmToInch(cm)) <= 0.05 && IsTenth(l.inches)
  {
    Dimension(caption, cm, Round1(CmToInch(cm)))
  }

  // ---------------------------------------------------------------------------
  // Canvas and body

  function CanvasWidth(d: ApronDesign): real { (Max(d.topWidth, d.bottomWidth) + 60.0) * Scale }

  function CanvasHeight(d: ApronDesign): real { (d.totalHeight + 80.0) * Scale }

  /** The white rectangle behind everything. */
  function Background(d: ApronDesign): Primitive {
    Rect(0.0, 0.0, CanvasWidth(d), CanvasHeight(d), Color("#ffffff"), NoPaint, 0.0, false)
  }

  /** Left end of the top edge: the top edge is centred over the bottom edge. */
  function TopStartX(d: ApronDesign): real {
    OriginX + (d.bottomWidth * Scale - d.topWidth * Scale) / 2.0
  }

  /** y of the line between the upper and lower sections. */
  function WaistY(d: ApronDesign): real { OriginY + d.waistHeight * Scale }

  /** y of the bottom edge. */
  function HemY(d: ApronDesign): real { OriginY + d.waistHeight * Scale + d.bottomHeight * Scale }

  /** The outline of `drawApronBody`: the top edge, a curved right shoulder down to the
      waist, the rectangular lower section, and the mirrored left shoulder back to the
      start. */
  function BodyOutline(d: ApronDesign): seq<Segment> {
    var ts := TopStartX(d);
    var tw := d.topWidth * Scale;
    var bw := d.bottomWidth * Scale;
    var wh := d.waistHeight * Scale;
    [ MoveTo(Point(ts, OriginY)),
      LineTo(Point(ts + tw, OriginY)),
      QuadTo(Point(ts + tw + (bw - tw) * 0.1, OriginY + wh * 0.8), Point(OriginX + bw, WaistY(d))),
      LineTo(Point(OriginX + bw, HemY(d))),
      LineTo(Point(OriginX, HemY(d))),
      LineTo(Point(OriginX, WaistY(d))),
      QuadTo(Point(ts - (bw - tw) * 0.1, OriginY + wh * 0.8), Point(ts, OriginY)),
      ClosePath ]
  }

  /** `getFillColor`: the colour's hex value, or light grey under a pattern. */
  function BodyFill(cc: ColorConfig): (p: Paint)
    ensures cc.Solid? ==> p == Color(cc.hexValue)
    ensures cc.Pattern? ==> p == Color("#f5f5f5")
  {
    if cc.Solid? then Color(cc.hexValue) else Color("#f5f5f5")
  }

  /** The same primitive with another fill (`.fill(...)` of svg.js); a line has no fill. */
  function WithFill(e: Primitive, paint: Paint): Primitive {
    match e
    case Rect(x, y, w, h, _, stroke, sw, dashed) => Rect(x, y, w, h, paint, stroke, sw, dashed)
    case Path(segments, _, stroke, sw, roundCap) => Path(segments, paint, stroke, sw, roundCap)
    case Line(_, _, _, _, _, _) => e
    case Polygon(points, _) => Polygon(points, paint)
    case Text(content, at, size, centered, bold, _, rotation) => Text(content, at, size, centered, bold, paint, rotation)
  }

  function BodyPath(d: ApronDesign): Primitive {
    Path(BodyOutline(d), BodyFill(d.colorConfig), Color("#333333"), 2.0, false)
  }

  /** The body outline: the top edge is centred over the bottom edge, the path closes
      at its start, the bottom edge is the full bottom width at the depth of both
      sections, the shoulder control points sit 10 % of the width difference outside
      the top edge at 0.8 of the upper section, and the outline is mirror-symmetric
      about the vertical centre line. */
  lemma BodyOutlineGeometry(d: ApronDesign)
    ensures var o := BodyOutline(d);
      && |o| == 8 && o[0].MoveTo? && o[7] == ClosePath
      && TopStartX(d) - OriginX == (OriginX + d.bottomWidth * Scale) - (TopStartX(d) + d.topWidth * Scale)
      && o[6].QuadTo? && o[6].to == o[0].to
      && o[3].to.y == o[4].to.y == OriginY + (d.waistHeight + d.bottomHeight) * Scale
      && o[3].to.x - o[4].to.x == d.bottomWidth * Scale
      && o[2].QuadTo? && o[2].control.x == o[1].to.x + (d.bottomWidth - d.topWidth) * Scale * 0.1
      && o[2].control.y == o[6].control.y == OriginY + 0.8 * d.waistHeight * Scale
    ensures var o := BodyOutline(d);
      var axis := 2.0 * OriginX + d.bottomWidth * Scale;
      && o[0].to.x + o[1].to.x == axis
      && o[2].control.x + o[6].control.x == axis
      && o[2].to.x + o[5].to.x == axis && o[2].to.y == o[5].to.y
      && o[3].to.x + o[4].to.x == axis
  {
  }

  /** When every length is non-negative, the two widths differ by at most 60 cm and the
      two sections are at most 40 cm deeper than the total height, every corner of
      the body lies on the canvas. */
  lemma BodyCornersOnCanvas(d: ApronDesign)
    requires 0.0 <= d.topWidth && 0.0 <= d.bottomWidth
    requires 0.0 <= d.waistHeight && 0.0 <= d.bottomHeight && 0.0 <= d.totalHeight
    requires d.topWidth - d.bottomWidth <= 60.0 && d.bottomWidth - d.topWidth <= 60.0
    requires d.waistHeight + d.bottomHeight <= d.totalHeight + 40.0
    ensures forall i :: 0 <= i < 7 ==>
      var p := BodyOutline(d)[i].to;
      0.0 <= p.x <= CanvasWidth(d) && 0.0 <= p.y <= CanvasHeight(d)
  {
    var o := BodyOutline(d);
    var m := Max(d.topWidth, d.bottomWidth);
    assert CanvasWidth(d) == 4.0 * m + 240.0;
    assert TopStartX(d) + d.topWidth * Scale == OriginX + 2.0 * d.bottomWidth + 2.0 * d.topWidth;
  }

  // ---------------------------------------------------------------------------
  // Straps and pocket

  /** The neck strap: two quadratic arcs from the top-left corner over a peak 25 cm
      above the top edge to the top-right corner, pulled outwards by a sixth of the
      strap length. */
  function NeckStrap(d: ApronDesign): Primitive {
    var ts := TopStartX(d);
    var tw := d.topWidth * Scale;
    var ns := d.neckStrap * Scale;
    var topY := OriginY - 20.0 * Scale;
    Path([ MoveTo(Point(ts, OriginY)),
           QuadTo(Point(ts - ns / 6.0, topY), Point(ts + tw / 2.0, topY - 5.0 * Scale)),
           QuadTo(Point(ts + tw + ns / 6.0, topY), Point(ts + tw, OriginY)) ],
         NoPaint, Color("#8B4513"), 6.0, true)
  }

  function LeftWaistStrap(d: ApronDesign): Primitive {
    Line(Point(OriginX, WaistY(d)), Point(OriginX - d.waistStrap * Scale, WaistY(d)), Color("#8B4513"), 6.0, true, false)
  }

  function RightWaistStrap(d: ApronDesign): Primitive {
    var right := OriginX + d.bottomWidth * Scale;
    Line(Point(right, WaistY(d)), Point(right + d.waistStrap * Scale, WaistY(d)), Color("#8B4513"), 6.0, true, false)
  }

  /** `drawStraps`. */
  function StrapPrimitives(d: ApronDesign): seq<Primitive> {
    [NeckStrap(d), LeftWaistStrap(d), RightWaistStrap(d)]
  }

  /** The neck strap starts and ends on the top corners of the body; the waist straps
      start on the waist corners of the body, run horizontally outwards along the
      waist line, and are each `waistStrap` long. */
  lemma StrapsAttachToBody(d: ApronDesign)
    requires 0.0 <= d.waistStrap
    ensures var o := BodyOutline(d);
      var n := NeckStrap(d).segments;
      && n[0].to == o[0].to && n[2].to == o[1].to
      && n[1].to.y == OriginY - 25.0 * Scale
    ensures var o := BodyOutline(d);
      var l := LeftWaistStrap(d);
      var r := RightWaistStrap(d);
      && l.from == o[5].to && r.from == o[2].to
      && l.to.y == r.to.y == WaistY(d)
      && l.from.x - l.to.x == r.to.x - r.from.x == d.waistStrap * Scale
      && l.to.x <= l.from.x && r.from.x <= r.to.x
  {
  }

  /** The left waist strap leaves the canvas exactly when it is longer than the 30 cm
      margin to the left of the body; the default 80 cm strap does. */
  lemma LeftWaistStrapLeavesCanvas(d: ApronDesign)
    ensures LeftWaistStrap(d).to.x < 0.0 <==> d.waistStrap > 30.0
    ensures LeftWaistStrap(DefaultDesign()).to.x == -200.0
  {
  }

  /** The pocket is always 28 x 16 cm. */
  const PocketWidth: real := 28.0 * Scale
  const PocketHeight: real := 16.0 * Scale

  function PocketX(d: ApronDesign): real { OriginX + (d.bottomWidth * Scale - PocketWidth) / 2.0 }

  function PocketY(d: ApronDesign): real { OriginY + d.waistHeight * Scale + d.bottomHeight * Scale * 0.3 }

  /** `drawPocket`: a dashed outline and a dashed divider down its middle. */
  function PocketPrimitives(d: ApronDesign): seq<Primitive> {
    var x := PocketX(d);
    var y := PocketY(d);
    [ Rect(x, y, PocketWidth, PocketHeight, NoPaint, Color("#333333"), 1.0, true),
      Line(Point(x + PocketWidth / 2.0, y), Point(x + PocketWidth / 2.0, y + PocketHeight), Color("#333333"), 1.0, false, true) ]
  }

  /** The pocket is centred on the bottom edge, its top is 30 % of the way down the
      lower section, and its divider splits it into two equal halves. It lies inside
      the lower section exactly when the apron is at least 28 cm wide and 70 % of the
      lower section is at least 16 cm. */
  lemma PocketPlacement(d: ApronDesign)
    requires 0.0 <= d.bottomHeight
    ensures var r := PocketPrimitives(d)[0];
      && r.x - OriginX == (OriginX + d.bottomWidth * Scale) - (r.x + r.width)
      && r.y == WaistY(d) + 0.3 * (HemY(d) - WaistY(d))
      && r.width == 28.0 * Scale && r.height == 16.0 * Scale
    ensures var r := PocketPrimitives(d)[0];
      var l := PocketPrimitives(d)[1];
      && l.from.x == l.to.x && l.from.x - r.x == (r.x + r.width) - l.from.x
      && l.from.y == r.y && l.to.y == r.y + r.height
    ensures var r := PocketPrimitives(d)[0];
      (OriginX <= r.x && r.x + r.width <= OriginX + d.bottomWidth * Scale &&
       WaistY(d) <= r.y && r.y + r.height <= HemY(d))
      <==> (28.0 <= d.bottomWidth && 16.0 <= 0.7 * d.bottomHeight)
  {
  }

  // ---------------------------------------------------------------------------
  // Dimension lines

  /** `addDimensionLine`: the line, an arrowhead at each end pointing outwards, and
      the label, centred above a horizontal line or rotated beside a vertical one. */
  function DimensionMarks(a: Point, b: Point, content: Label, horizontal: bool): seq<Primitive> {
    var arrow := 6.0;
    var grey := Color("#666666");
    var line := Line(a, b, grey, 1.0, false, false);
    if horizontal then
      [ line,
        Polygon([a, Point(a.x + arrow, a.y - arrow / 2.0), Point(a.x + arrow, a.y + arrow / 2.0)], grey),
        Polygon([b, Point(b.x - arrow, b.y - arrow / 2.0), Point(b.x - arrow, b.y + arrow / 2.0)], grey),
        Text(content, Point((a.x + b.x) / 2.0, a.y - 20.0), 11, true, false, Color("#333333"), 0) ]
    else
      [ line,
        Polygon([a, Point(a.x - arrow / 2.0, a.y + arrow), Point(a.x + arrow / 2.0, a.y + arrow)], grey),
        Polygon([b, Point(b.x - arrow / 2.0, b.y - arrow), Point(b.x + arrow / 2.0, b.y - arrow)], grey),
        Text(content, Point(a.x - 35.0, (a.y + b.y) / 2.0), 11, true, false, Color("#333333"), -90) ]
  }

  /** Each dimension mark is a line between the two points, two arrowheads whose tips
      are exactly its end points and whose bases point back along the line, and its
      label: above the middle of a horizontal line, or rotated by -90 degrees 35 units
      left of a vertical one at half its height. */
  lemma DimensionMarksShape(a: Point, b: Point, content: Label, horizontal: bool)
    ensures var m := DimensionMarks(a, b, content, horizontal);
      && |m| == 4 && m[0].Line? && m[0].from == a && m[0].to == b
      && m[1].Polygon? && m[1].points[0] == a && m[2].Polygon? && m[2].points[0] == b
      && m[3].Text? && m[3].content == content
    ensures var m := DimensionMarks(a, b, content, horizontal);
      horizontal ==>
        && m[1].points[1].x == m[1].points[2].x == a.x + 6.0
        && m[2].points[1].x == m[2].points[2].x == b.x - 6.0
        && m[3].at.x - a.x == b.x - m[3].at.x && m[3].rotation == 0
    ensures var m := DimensionMarks(a, b, content, horizontal);
      !horizontal ==>
        && m[1].points[1].y == m[1].points[2].y == a.y + 6.0
        && m[2].points[1].y == m[2].points[2].y == b.y - 6.0
        && m[3].at == Point(a.x - 35.0, (a.y + b.y) / 2.0) && m[3].rotation == -90
  {
  }

  /** The five measured spans of `addDimensions`, as end points and labels, with the
      orientation of each. */
  function TopWidthSpan(d: ApronDesign): (Point, Point) {
    var y := OriginY - 10.0 * Scale;
    (Point(TopStartX(d), y), Point(TopStartX(d) + d.topWidth * Scale, y))
  }

  function BottomWidthSpan(d: ApronDesign): (Point, Point) {
    var y := OriginY + d.totalHeight * Scale + 10.0 * Scale;
    (Point(OriginX, y), Point(OriginX + d.bottomWidth * Scale, y))
  }

  function TotalHeightSpan(d: ApronDesign): (Point, Point) {
    var x := OriginX - 15.0 * Scale;
    (Point(x, OriginY), Point(x, OriginY + d.totalHeight * Scale))
  }

  function WaistHeightSpan(d: ApronDesign): (Point, Point) {
    var x := OriginX + d.bottomWidth * Scale + 10.0 * Scale;
    (Point(x, OriginY), Point(x, OriginY + d.waistHeight * Scale))
  }

  function BottomHeightSpan(d: ApronDesign): (Point, Point) {
    var x := OriginX + d.bottomWidth * Scale + 25.0 * Scale;
    (Point(x, OriginY + d.waistHeight * Scale), Point(x, OriginY + d.totalHeight * Scale))
  }

  function DimensionPrimitives(d: ApronDesign): seq<Primitive> {
    DimensionMarks(TopWidthSpan(d).0, TopWidthSpan(d).1, DimensionLabel("上沿: ", d.topWidth), true) +
    DimensionMarks(BottomWidthSpan(d).0, BottomWidthSpan(d).1, DimensionLabel("下沿: ", d.bottomWidth), true) +
    DimensionMarks(TotalHeightSpan(d).0, TotalHeightSpan(d).1, DimensionLabel("总高: ", d.totalHeight), false) +
    DimensionMarks(WaistHeightSpan(d).0, WaistHeightSpan(d).1, DimensionLabel("腰部: ", d.waistHeight), false) +
    DimensionMarks(BottomHeightSpan(d).0, BottomHeightSpan(d).1, DimensionLabel("下部: ", d.bottomHeight), false)
  }

  /** The dimension lines measure the body: the width lines span the top and bottom
      edges exactly (10 cm above and 10 cm below the total height), the upper-section
      line spans the body's upper section, and the total-height line and the
      lower-section line end at the total height rather than at the body's hem. With
      derived heights the two differ by at most 0.05 cm (0.2 units). */
  lemma DimensionLinesMatchBody(d: ApronDesign)
    ensures var o := BodyOutline(d);
      && TopWidthSpan(d).0.x == o[0].to.x && TopWidthSpan(d).1.x == o[1].to.x
      && TopWidthSpan(d).0.y == o[0].to.y - 10.0 * Scale
      && BottomWidthSpan(d).0.x == o[4].to.x && BottomWidthSpan(d).1.x == o[3].to.x
      && WaistHeightSpan(d).0.y == o[0].to.y && WaistHeightSpan(d).1.y == o[2].to.y
      && BottomHeightSpan(d).0.y == o[5].to.y
      && TotalHeightSpan(d).1.y == BottomHeightSpan(d).1.y == OriginY + d.totalHeight * Scale
    ensures HeightsDerived(d) ==> Abs(TotalHeightSpan(d).1.y - HemY(d)) <= 0.05 * Scale
  {
    if HeightsDerived(d) {
      HeightsDerivedSum(d);
    }
  }

  /** Appending the five marks one after another appends `DimensionPrimitives`. */
  lemma DimensionPrimitivesInOrder(d: ApronDesign, e: seq<Primitive>)
    ensures e + DimensionPrimitives(d) ==
      e + DimensionMarks(TopWidthSpan(d).0, TopWidthSpan(d).1, DimensionLabel("上沿: ", d.topWidth), true)
        + DimensionMarks(BottomWidthSpan(d).0, BottomWidthSpan(d).1, DimensionLabel("下沿: ", d.bottomWidth), true)
        + DimensionMarks(TotalHeightSpan(d).0, TotalHeightSpan(d).1, DimensionLabel("总高: ", d.totalHeight), false)
        + DimensionMarks(WaistHeightSpan(d).0, WaistHeightSpan(d).1, DimensionLabel("腰部: ", d.waistHeight), false)
        + DimensionMarks(BottomHeightSpan(d).0, BottomHeightSpan(d).1, DimensionLabel("下部: ", d.bottomHeight), false)
  {
  }

  // ---------------------------------------------------------------------------
  // Colour legend, title and pattern placeholder

  /** The legend text of a solid colour: its name, followed by its Pantone code in
      brackets when it has one. */
  function SolidLegend(colorName: string, pantoneCode: Option<string>): (r: string)
    ensures !Present(pantoneCode) ==> r == "颜色: " + colorName
    ensures Present(pantoneCode) ==>
      && |r| == |"颜色: " + colorName| + 7 + |pantoneCode.value|
      && r[..|"颜色: " + colorName|] == "颜色: " + colorName
      && r[|"颜色: " + colorName|..|"颜色: " + colorName| + 6] == " (潘通: "
      && r[|r| - |pantoneCode.value| - 1..] == pantoneCode.value + ")"
  {
    var head := "颜色: " + colorName;
    if Present(pantoneCode) then
      var r := head + " (潘通: " + pantoneCode.value + ")";
      assert r[..|head|] == head;
      assert r[|head|..|head| + 6] == " (潘通: ";
      assert r[|r| - |pantoneCode.value| - 1..] == pantoneCode.value + ")";
      r
    else head
  }

  /** `addColorSpecification`, placed from the canvas width `w`: a swatch and the
      legend for a solid colour, two lines of text for a pattern. */
  function ColorSpecPrimitives(cc: ColorConfig, w: real): seq<Primitive> {
    match cc
    case Solid(name, pantone, hex) =>
      [ Rect(w - 200.0, 20.0, 30.0, 20.0, Color(hex), Color("#333333"), 1.0, false),
        Text(Plain(SolidLegend(name, pantone)), Point(w - 160.0, 25.0), 12, false, false, Color("#333333"), 0) ]
    case Pattern(_, patternName, repeatMode, _, _, _) =>
      [ Text(Plain("印花图案: " + patternName), Point(w - 200.0, 20.0), 12, false, false, Color("#333333"), 0),
        Text(Plain("重复模式: " + repeatMode), Point(w - 200.0, 40.0), 10, false, false, Color("#666666"), 0) ]
  }

  /** `addTitle`: the fixed title and the size summary, both centred on the canvas. */
  function TitlePrimitives(d: ApronDesign, w: real): seq<Primitive> {
    [ Text(Plain("围裙设计稿"), Point(w / 2.0, 15.0), 18, true, true, Color("#333333"), 0),
      Text(Summary(d.topWidth, d.bottomWidth, d.totalHeight), Point(w / 2.0, 35.0), 12, true, false, Color("#666666"), 0) ]
  }

  /** The label `addPatternText` shows for a repeat mode: the Chinese name of a known
      mode, the mode itself otherwise. */
  function ModeText(mode: string): (r: string)
    ensures ModeOf(mode).None? ==> r == mode
    ensures ModeOf(mode).Some? ==> r in {"平铺重复", "拉伸填充", "居中显示", "自定义位置"}
  {
    match ModeOf(mode)
    case Some(Tile) => "平铺重复"
    case Some(Stretch) => "拉伸填充"
    case Some(Center) => "居中显示"
    case Some(Custom) => "自定义位置"
    case None => mode
  }

  /** Different known modes get different labels, and no unknown mode is shown under
      a known mode's label unless it is spelled that way. */
  lemma ModeTextDistinct(m1: RepeatMode, m2: RepeatMode)
    ensures ModeText(ModeName(m1)) == ModeText(ModeName(m2)) <==> m1 == m2
  {
  }

  /** `addPatternText`: the pattern name at the centre of the area and the mode label
      20 units below it. */
  function PlaceholderTexts(x: real, y: real, w: real, h: real, patternName: string, repeatMode: string): seq<Primitive> {
    [ Text(Plain("图案: " + patternName), Point(x + w / 2.0, y + h / 2.0), 12, true, false, Color("#666666"), 0),
      Text(Plain("模式: " + ModeText(repeatMode)), Point(x + w / 2.0, y + h / 2.0 + 20.0), 10, true, false, Color("#666666"), 0) ]
  }

  // ---------------------------------------------------------------------------
  // Pattern fill of the body

  /** `this.tempFile || patternConfig.file`. */
  function FileToUse(tempFile: Option<FileRef>, cc: ColorConfig): Option<FileRef>
    requires cc.Pattern?
  {
    if tempFile.Some? then tempFile else cc.file
  }

  /** The pattern `applyPatternToApron` creates for an area of `w` by `h`, if any. */
  function PatternOutcome(d: ApronDesign, tempFile: Option<FileRef>, decoding: Decoding, w: real, h: real): Option<PatternDef>
    requires d.colorConfig.Pattern?
  {
    var cc := d.colorConfig;
    var file := FileToUse(tempFile, cc);
    if file.None? then None
    else PatternForFile(file.value, decoding, cc.repeatMode, w, h, cc.customSize, cc.customPositionX, cc.customPositionY)
  }

  /** The area a pattern fills: the bounding box of the body. */
  function PatternAreaWidth(d: ApronDesign): real { d.bottomWidth * Scale }

  function PatternAreaHeight(d: ApronDesign): real { d.waistHeight * Scale + d.bottomHeight * Scale }

  /** What `drawApronBody` adds: pattern definitions and primitives. */
  datatype Layer = Layer(defs: seq<PatternDef>, elements: seq<Primitive>)

  function BodyLayer(d: ApronDesign, tempFile: Option<FileRef>, decoding: Decoding): Layer {
    var body := BodyPath(d);
    if d.colorConfig.Solid? then Layer([], [body])
    else
      var w := PatternAreaWidth(d);
      var h := PatternAreaHeight(d);
      match PatternOutcome(d, tempFile, decoding, w, h)
      case Some(p) => Layer([p], [WithFill(body, PatternRef(p.id))])
      case None => Layer([], [body] + PlaceholderTexts(OriginX, OriginY, w, h, d.colorConfig.patternName, d.colorConfig.repeatMode))
  }

  /** How the body is filled: a solid colour fills it directly; a pattern whose file
      (the temporary file first, the configured file otherwise) yields a pattern fills
      it with `url(#pattern-<timestamp>)` and adds that one definition; otherwise it
      stays light grey with the name and mode written at its centre. */
  lemma BodyFillResolution(d: ApronDesign, tempFile: Option<FileRef>, decoding: Decoding)
    ensures var l := BodyLayer(d, tempFile, decoding);
      d.colorConfig.Solid? ==>
        l.defs == [] && l.elements == [BodyPath(d)] && l.elements[0].fill == Color(d.colorConfig.hexValue)
    ensures var l := BodyLayer(d, tempFile, decoding);
      d.colorConfig.Pattern? ==>
        && l.elements[0].segments == BodyOutline(d)
        && (l.elements[0].fill == PatternRef(PatternId(decoding.timestamp)) <==>
              PatternOutcome(d, tempFile, decoding, PatternAreaWidth(d), PatternAreaHeight(d)).Some?)
        && (|l.defs| == 1 <==> |l.elements| == 1)
        && (|l.elements| == 1 || (|l.elements| == 3 && l.elements[0].fill == Color("#f5f5f5")))
  {
    if d.colorConfig.Pattern? {
      var o := PatternOutcome(d, tempFile, decoding, PatternAreaWidth(d), PatternAreaHeight(d));
      if o.Some? {
        assert o.value.id == PatternId(decoding.timestamp);
      } else {
        assert BodyLayer(d, tempFile, decoding).elements[0].fill == Color("#f5f5f5");
      }
    }
  }

  /** The temporary file takes precedence: drawing with a temporary file is drawing
      with that file in the configuration, whatever file the configuration held. */
  lemma TempFileTakesPrecedence(d: ApronDesign, f: FileRef, decoding: Decoding)
    requires d.colorConfig.Pattern?
    ensures BodyLayer(d, Some(f), decoding) == BodyLayer(d.(colorConfig := d.colorConfig.(file := Some(f))), None, decoding)
  {
    var e := d.(colorConfig := d.colorConfig.(file := Some(f)));
    assert BodyPath(e) == BodyPath(d);
    assert PatternOutcome(e, None, decoding, PatternAreaWidth(e), PatternAreaHeight(e)) ==
           PatternOutcome(d, Some(f), decoding, PatternAreaWidth(d), PatternAreaHeight(d));
  }

  /** Without any file the body shows the placeholder texts and no pattern. */
  lemma NoFileGivesPlaceholder(d: ApronDesign, decoding: Decoding)
    requires d.colorConfig.Pattern? && d.colorConfig.file.None?
    ensures BodyLayer(d, None, decoding) ==
      Layer([], [BodyPath(d)] + PlaceholderTexts(OriginX, OriginY, PatternAreaWidth(d), PatternAreaHeight(d),
                                                 d.colorConfig.patternName, d.colorConfig.repeatMode))
  {
  }

  // ---------------------------------------------------------------------------
  // The whole drawing

  /** `generate`, as the document it builds. */
  function Render(d: ApronDesign, tempFile: Option<FileRef>, decoding: Decoding): Document {
    var layer := BodyLayer(d, tempFile, decoding);
    var w := CanvasWidth(d);
    Document(w, CanvasHeight(d), layer.defs,
      [Background(d)] + layer.elements + StrapPrimitives(d) + PocketPrimitives(d) +
      DimensionPrimitives(d) + ColorSpecPrimitives(d.colorConfig, w) + TitlePrimitives(d, w))
  }

  /** The drawing order: the background covers the canvas and comes first, the body
      outline comes next, and the title and the size summary, centred on the canvas,
      come last; in between lie the body layer and 29 further primitives. */
  lemma RenderLayout(d: ApronDesign, tempFile: Option<FileRef>, decoding: Decoding)
    ensures var doc := Render(d, tempFile, decoding);
      && doc.width == (Max(d.topWidth, d.bottomWidth) + 60.0) * 4.0
      && doc.height == (d.totalHeight + 80.0) * 4.0
      && |doc.elements| == 1 + |BodyLayer(d, tempFile, decoding).elements| + 29
      && doc.elements[0] == Rect(0.0, 0.0, doc.width, doc.height, Color("#ffffff"), NoPaint, 0.0, false)
      && doc.elements[1].Path? && doc.elements[1].segments == BodyOutline(d)
      && doc.elements[|doc.elements| - 1].content == Summary(d.topWidth, d.bottomWidth, d.totalHeight)
      && doc.elements[|doc.elements| - 1].at.x * 2.0 == doc.width
  {
    var layer := BodyLayer(d, tempFile, decoding);
    BodyFillResolution(d, tempFile, decoding);
    assert |DimensionPrimitives(d)| == 20;
    assert |ColorSpecPrimitives(d.colorConfig, CanvasWidth(d))| == 2;
  }

  // ---------------------------------------------------------------------------
  // The generator object

  /** `ApronSVGGenerator`: the design and temporary file it draws, and the document
      under construction (its size, its `<defs>` and its elements in order). */
  class Generator {
    const design: ApronDesign
    const tempFile: Option<FileRef>
    const scale: real := 4.0
    var width: real
    var height: real
    var defs: seq<PatternDef>
    var elements: seq<Primitive>

    constructor (design: ApronDesign, tempFile: Option<FileRef>)
      ensures this.design == design && this.tempFile == tempFile
      ensures defs == [] && elements == []
    {
      this.design := design;
      this.tempFile := tempFile;
      width, height := 0.0, 0.0;
      defs, elements := [], [];
    }

    /** `generate()`: `None` outside a browser (the source returns an empty string),
        otherwise the document of `Render`. */
    method Generate(inBrowser: bool, decoding: Decoding) returns (doc: Option<Document>)
      modifies this
      ensures doc == if inBrowser then Some(Render(design, tempFile, decoding)) else None
    {
      var maxWidth := Max(design.topWidth, design.bottomWidth);
      var canvasWidth := (maxWidth + 60.0) * scale;
      var canvasHeight := (design.totalHeight + 80.0) * scale;
      if !inBrowser {
        return None;
      }
      width, height := canvasWidth, canvasHeight;
      defs, elements := [], [];
      elements := elements + [Rect(0.0, 0.0, canvasWidth, canvasHeight, Color("#ffffff"), NoPaint, 0.0, false)];
      assert elements == [Background(design)];
      DrawApronBody(decoding);
      assert defs == BodyLayer(design, tempFile, decoding).defs;
      DrawStraps();
      DrawPocket();
      AddDimensions();
      AddColorSpecification();
      AddTitle();
      doc := Some(Document(width, height, defs, elements));
    }

    /** `drawApronBody()`: appends the body path and, for a pattern, fills it. */
    method DrawApronBody(decoding: Decoding)
      modifies this
      ensures width == old(width) && height == old(height)
      ensures defs == old(defs) + BodyLayer(design, tempFile, decoding).defs
      ensures elements == old(elements) + BodyLayer(design, tempFile, decoding).elements
    {
      var startX := 30.0 * scale;
      var startY := 40.0 * scale;
      var topWidth := design.topWidth * scale;
      var bottomWidth := design.bottomWidth * scale;
      var waistHeight := design.waistHeight * scale;
      var bottomHeight := design.bottomHeight * scale;
      var topStartX := startX + (bottomWidth - topWidth) / 2.0;
      var bottomStartX := startX;
      var apronPath :=
        [ MoveTo(Point(topStartX, startY)),
          LineTo(Point(topStartX + topWidth, startY)),
          QuadTo(Point(topStartX + topWidth + (bottomWidth - topWidth) * 0.1, startY + waistHeight * 0.8),
                 Point(bottomStartX + bottomWidth, startY + waistHeight)),
          LineTo(Point(bottomStartX + bottomWidth, startY + waistHeight + bottomHeight)),
          LineTo(Point(bottomStartX, startY + waistHeight + bottomHeight)),
          LineTo(Point(bottomStartX, startY + waistHeight)),
          QuadTo(Point(topStartX - (bottomWidth - topWidth) * 0.1, startY + waistHeight * 0.8), Point(topStartX, startY)),
          ClosePath ];
      var fillColor := BodyFill(design.colorConfig);
      assert scale == 4.0 && startX == OriginX && startY == OriginY && topStartX == TopStartX(design);
      assert startY + waistHeight == WaistY(design) && startY + waistHeight + bottomHeight == HemY(design);
      ghost var outline := BodyOutline(design);
      assert apronPath[0] == outline[0] && apronPath[1] == outline[1] && apronPath[2] == outline[2];
      assert apronPath[3] == outline[3] && apronPath[4] == outline[4] && apronPath[5] == outline[5];
      assert apronPath[6] == outline[6] && apronPath[7] == outline[7];
      assert apronPath == outline;
      var body := Path(apronPath, fillColor, Color("#333333"), 2.0, false);
      ghost var before := elements;
      elements := elements + [body];
      if design.colorConfig.Pattern? {
        ApplyPatternToApron(|elements| - 1, startX, startY, bottomWidth, waistHeight + bottomHeight, decoding);
        assert bottomWidth == PatternAreaWidth(design) && waistHeight + bottomHeight == PatternAreaHeight(design);
        match PatternOutcome(design, tempFile, decoding, bottomWidth, waistHeight + bottomHeight)
        case Some(p) =>
          assert (before + [body])[|before| := WithFill(body, PatternRef(p.id))] == before + [WithFill(body, PatternRef(p.id))];
        case None =>
      }
    }

    /** `applyPatternToApron(apronShape, x, y, width, height)`: fills the shape at
        `index` with the pattern made from the file to use, or writes the placeholder
        texts when there is no file or no pattern could be made. */
    method ApplyPatternToApron(index: nat, x: real, y: real, w: real, h: real, decoding: Decoding)
      requires design.colorConfig.Pattern?
      requires index < |elements|
      modifies this
      ensures width == old(width) && height == old(height)
      ensures var p := PatternOutcome(design, tempFile, decoding, w, h);
        && (p.Some? ==>
              defs == old(defs) + [p.value] &&
              elements == old(elements)[index := WithFill(old(elements)[index], PatternRef(p.value.id))])
        && (p.None? ==>
              defs == old(defs) &&
              elements == old(elements) + PlaceholderTexts(x, y, w, h, design.colorConfig.patternName, design.colorConfig.repeatMode))
    {
      var patternConfig := design.colorConfig;
      var fileToUse := if tempFile.Some? then tempFile else patternConfig.file;
      if fileToUse.Some? {
        var patternId := CreatePatternFromFile(fileToUse.value, decoding, patternConfig.repeatMode, w, h,
                                               patternConfig.customSize, patternConfig.customPositionX, patternConfig.customPositionY);
        if patternId.Some? {
          elements := elements[index := WithFill(elements[index], PatternRef(patternId.value))];
        } else {
          AddPatternText(x, y, w, h, patternConfig.patternName, patternConfig.repeatMode);
        }
      } else {
        AddPatternText(x, y, w, h, patternConfig.patternName, patternConfig.repeatMode);
      }
    }

    /** `createPatternFromFile(file, ...)`: appends the pattern for the file's route and
        returns its id, or appends nothing and returns `None` (null). */
    method CreatePatternFromFile(file: FileRef, decoding: Decoding, repeatMode: string, w: real, h: real,
                                 customSize: Option<real>, customPositionX: Option<real>, customPositionY: Option<real>)
      returns (patternId: Option<string>)
      modifies this
      ensures width == old(width) && height == old(height) && elements == old(elements)
      ensures var r := PatternForFile(file, decoding, repeatMode, w, h, customSize, customPositionX, customPositionY);
        && (r.Some? ==> patternId == Some(r.value.id) && defs == old(defs) + [r.value])
        && (r.None? ==> patternId == None && defs == old(defs))
    {
      if file.mimeType == "" {
        return None;
      }
      var fileType := ToLowerAscii(file.mimeType);
      var id := PatternId(decoding.timestamp);
      patternId := None;
      if decoding.payload.None? || decoding.payload.value == "" {
        return None;
      }
      if Contains(fileType, "svg") {
        var result := CreateSvgPattern(id, decoding.parsed, repeatMode, w, h, customSize, customPositionX, customPositionY);
        patternId := Some(result);
      } else if Contains(fileType, "image") {
        var result := CreateImagePattern(decoding.payload.value, id, repeatMode, w, h, customSize, customPositionX, customPositionY);
        patternId := Some(result);
      } else if Contains(fileType, "pdf") {
        var result := CreateImagePattern(decoding.payload.value, id, repeatMode, w, h, customSize, customPositionX, customPositionY);
        patternId := Some(result);
      }
    }

    /** `createSVGPattern`: appends a pattern with the tile of `SvgTileLayout`, the
        transparent background for center and custom, and a group holding copies of
        the parsed SVG's top-level elements, in order. */
    method CreateSvgPattern(patternId: string, parsed: Option<seq<string>>, repeatMode: string, w: real, h: real,
                            customSize: Option<real>, customPositionX: Option<real>, customPositionY: Option<real>)
      returns (id: string)
      modifies this
      ensures width == old(width) && height == old(height) && elements == old(elements)
      ensures id == patternId
      ensures defs == old(defs) + [SvgPatternDef(patternId, parsed, repeatMode, w, h, customSize, customPositionX, customPositionY)]
    {
      var tile := SvgTileLayout(repeatMode, w, h, customSize, customPositionX, customPositionY);
      var children: seq<PatternChild> := [];
      if repeatMode == "center" || repeatMode == "custom" {
        children := children + [TransparentRect(tile.width, tile.height)];
      }
      if parsed.Some? {
        var nodes := parsed.value;
        var copied: seq<string> := [];
        var i := 0;
        while i < |nodes|
          invariant 0 <= i <= |nodes|
          invariant copied == nodes[..i]
        {
          copied := copied + [nodes[i]];
          i := i + 1;
        }
        assert copied == nodes;
        children := children + [Group(tile.transform, tile.opacity, copied)];
      }
      assert children == BackgroundFor(repeatMode, tile.width, tile.height) +
        (if parsed.Some? then [Group(tile.transform, tile.opacity, parsed.value)] else []);
      defs := defs + [PatternDef(patternId, tile.width, tile.height, children)];
      id := patternId;
    }

    /** `createImagePattern`: appends a pattern with the tile and image box of
        `ImageTileLayout`, the transparent background for center and custom, and the
        image. */
    method CreateImagePattern(imageUrl: string, patternId: string, repeatMode: string, w: real, h: real,
                              customSize: Option<real>, customPositionX: Option<real>, customPositionY: Option<real>)
      returns (id: string)
      modifies this
      ensures width == old(width) && height == old(height) && elements == old(elements)
      ensures id == patternId
      ensures defs == old(defs) + [ImagePatternDef(patternId, imageUrl, repeatMode, w, h, customSize, customPositionX, customPositionY)]
    {
      var tile := ImageTileLayout(repeatMode, w, h, customSize, customPositionX, customPositionY);
      var children: seq<PatternChild> := [];
      if repeatMode == "center" || repeatMode == "custom" {
        children := children + [TransparentRect(tile.width, tile.height)];
      }
      children := children + [Image(imageUrl, tile.x, tile.y, tile.imageWidth, tile.imageHeight)];
      assert children == BackgroundFor(repeatMode, tile.width, tile.height) + [Image(imageUrl, tile.x, tile.y, tile.imageWidth, tile.imageHeight)];
      defs := defs + [PatternDef(patternId, tile.width, tile.height, children)];
      id := patternId;
    }

    /** `addPatternText(x, y, width, height, config)`. */
    method AddPatternText(x: real, y: real, w: real, h: real, patternName: string, repeatMode: string)
      modifies this
      ensures width == old(width) && height == old(height) && defs == old(defs)
      ensures elements == old(elements) + PlaceholderTexts(x, y, w, h, patternName, repeatMode)
    {
      var modeText := ModeText(repeatMode);
      elements := elements + [Text(Plain("图案: " + patternName), Point(x + w / 2.0, y + h / 2.0), 12, true, false, Color("#666666"), 0)];
      elements := elements + [Text(Plain("模式: " + modeText), Point(x + w / 2.0, y + h / 2.0 + 20.0), 10, true, false, Color("#666666"), 0)];
    }

    /** `drawStraps()`. */
    method DrawStraps()
      modifies this
      ensures width == old(width) && height == old(height) && defs == old(defs)
      ensures elements == old(elements) + StrapPrimitives(design)
    {
      var startX := 30.0 * scale;
      var startY := 40.0 * scale;
      var topWidth := design.topWidth * scale;
      var bottomWidth := design.bottomWidth * scale;
      var topStartX := startX + (bottomWidth - topWidth) / 2.0;
      var neckStrapLength := design.neckStrap * scale;
      var neckStrapHeight := 20.0 * scale;
      var leftNeckX := topStartX - neckStrapLength / 6.0;
      var rightNeckX := topStartX + topWidth + neckStrapLength / 6.0;
      var neckStrapTopY := startY - neckStrapHeight;
      var neckStrapPath :=
        [ MoveTo(Point(topStartX, startY)),
          QuadTo(Point(leftNeckX, neckStrapTopY), Point(topStartX + topWidth / 2.0, neckStrapTopY - 5.0 * scale)),
          QuadTo(Point(rightNeckX, neckStrapTopY), Point(topStartX + topWidth, startY)) ];
      var e0 := elements;
      var n := NeckStrap(design).segments;
      assert |n| == 3;
      assert neckStrapPath[0] == n[0];
      assert neckStrapPath[1] == n[1];
      assert neckStrapPath[2] == n[2];
      elements := elements + [Path(neckStrapPath, NoPaint, Color("#8B4513"), 6.0, true)];
      assert elements == e0 + [NeckStrap(design)];
      var waistY := startY + design.waistHeight * scale;
      var waistStrapLength := design.waistStrap * scale;
      var leftWaistX := startX;
      var rightWaistX := startX + bottomWidth;
      elements := elements + [Line(Point(leftWaistX, waistY), Point(leftWaistX - waistStrapLength, waistY), Color("#8B4513"), 6.0, true, false)];
      assert elements[|e0| + 1] == LeftWaistStrap(design);
      assert elements == e0 + [NeckStrap(design), LeftWaistStrap(design)];
      elements := elements + [Line(Point(rightWaistX, waistY), Point(rightWaistX + waistStrapLength, waistY), Color("#8B4513"), 6.0, true, false)];
      assert elements == e0 + [NeckStrap(design), LeftWaistStrap(design), RightWaistStrap(design)];
    }

    /** `drawPocket()`. */
    method DrawPocket()
      modifies this
      ensures width == old(width) && height == old(height) && defs == old(defs)
      ensures elements == old(elements) + PocketPrimitives(design)
    {
      var startX := 30.0 * scale;
      var startY := 40.0 * scale;
      var bottomWidth := design.bottomWidth * scale;
      var waistHeight := design.waistHeight * scale;
      var bottomHeight := design.bottomHeight * scale;
      var pocketWidth := 28.0 * scale;
      var pocketHeight := 16.0 * scale;
      var pocketX := startX + (bottomWidth - pocketWidth) / 2.0;
      var pocketY := startY + waistHeight + bottomHeight * 0.3;
      var e0 := elements;
      elements := elements + [Rect(pocketX, pocketY, pocketWidth, pocketHeight, NoPaint, Color("#333333"), 1.0, true)];
      elements := elements + [Line(Point(pocketX + pocketWidth / 2.0, pocketY), Point(pocketX + pocketWidth / 2.0, pocketY + pocketHeight),
                                   Color("#333333"), 1.0, false, true)];
      var p := PocketPrimitives(design);
      assert elements[|e0|] == p[0] && elements[|e0| + 1] == p[1];
      assert elements == e0 + p;
    }

    /** `addDimensions()`: the five dimension lines, top width first. */
    method AddDimensions()
      modifies this
      ensures width == old(width) && height == old(height) && defs == old(defs)
      ensures elements == old(elements) + DimensionPrimitives(design)
    {
      var startX := 30.0 * scale;
      var startY := 40.0 * scale;
      var topWidth := design.topWidth * scale;
      var bottomWidth := design.bottomWidth * scale;
      var waistHeight := design.waistHeight * scale;
      var totalHeight := design.totalHeight * scale;
      var topStartX := startX + (bottomWidth - topWidth) / 2.0;
      var e0 := elements;
      assert Point(topStartX, startY - 10.0 * scale) == TopWidthSpan(design).0;
      assert Point(topStartX + topWidth, startY - 10.0 * scale) == TopWidthSpan(design).1;
      AddDimensionLine(Point(topStartX, startY - 10.0 * scale), Point(topStartX + topWidth, startY - 10.0 * scale),
                       DimensionLabel("上沿: ", design.topWidth), true);
      assert Point(startX, startY + totalHeight + 10.0 * scale) == BottomWidthSpan(design).0;
      assert Point(startX + bottomWidth, startY + totalHeight + 10.0 * scale) == BottomWidthSpan(design).1;
      AddDimensionLine(Point(startX, startY + totalHeight + 10.0 * scale), Point(startX + bottomWidth, startY + totalHeight + 10.0 * scale),
                       DimensionLabel("下沿: ", design.bottomWidth), true);
      assert Point(startX - 15.0 * scale, startY) == TotalHeightSpan(design).0;
      assert Point(startX - 15.0 * scale, startY + totalHeight) == TotalHeightSpan(design).1;
      AddDimensionLine(Point(startX - 15.0 * scale, startY), Point(startX - 15.0 * scale, startY + totalHeight),
                       DimensionLabel("总高: ", design.totalHeight), false);
      assert Point(startX + bottomWidth + 10.0 * scale, startY) == WaistHeightSpan(design).0;
      assert Point(startX + bottomWidth + 10.0 * scale, startY + waistHeight) == WaistHeightSpan(design).1;
      AddDimensionLine(Point(startX + bottomWidth + 10.0 * scale, startY), Point(startX + bottomWidth + 10.0 * scale, startY + waistHeight),
                       DimensionLabel("腰部: ", design.waistHeight), false);
      assert Point(startX + bottomWidth + 25.0 * scale, startY + waistHeight) == BottomHeightSpan(design).0;
      assert Point(startX + bottomWidth + 25.0 * scale, startY + totalHeight) == BottomHeightSpan(design).1;
      AddDimensionLine(Point(startX + bottomWidth + 25.0 * scale, startY + waistHeight), Point(startX + bottomWidth + 25.0 * scale, startY + totalHeight),
                       DimensionLabel("下部: ", design.bottomHeight), false);
      DimensionPrimitivesInOrder(design, e0);
    }

    /** `addDimensionLine(x1, y1, x2, y2, text, direction)`. */
    method AddDimensionLine(a: Point, b: Point, content: Label, horizontal: bool)
      modifies this
      ensures width == old(width) && height == old(height) && defs == old(defs)
      ensures elements == old(elements) + DimensionMarks(a, b, content, horizontal)
    {
      var arrowSize := 6.0;
      elements := elements + [Line(a, b, Color("#666666"), 1.0, false, false)];
      if horizontal {
        elements := elements + [Polygon([a, Point(a.x + arrowSize, a.y - arrowSize / 2.0), Point(a.x + arrowSize, a.y + arrowSize / 2.0)], Color("#666666"))];
        elements := elements + [Polygon([b, Point(b.x - arrowSize, b.y - arrowSize / 2.0), Point(b.x - arrowSize, b.y + arrowSize / 2.0)], Color("#666666"))];
        elements := elements + [Text(content, Point((a.x + b.x) / 2.0, a.y - 20.0), 11, true, false, Color("#333333"), 0)];
      } else {
        elements := elements + [Polygon([a, Point(a.x - arrowSize / 2.0, a.y + arrowSize), Point(a.x + arrowSize / 2.0, a.y + arrowSize)], Color("#666666"))];
        elements := elements + [Polygon([b, Point(b.x - arrowSize / 2.0, b.y - arrowSize), Point(b.x + arrowSize / 2.0, b.y - arrowSize)], Color("#666666"))];
        elements := elements + [Text(content, Point(a.x - 35.0, (a.y + b.y) / 2.0), 11, true, false, Color("#333333"), -90)];
      }
    }

    /** `addColorSpecification()`, placed from the current canvas width. */
    method AddColorSpecification()
      modifies this
      ensures width == old(width) && height == old(height) && defs == old(defs)
      ensures elements == old(elements) + ColorSpecPrimitives(design.colorConfig, width)
    {
      var canvasWidth := width;
      var specY := 20.0;
      match design.colorConfig {
        case Solid(colorName, pantoneCode, hexValue) =>
          var colorText := "颜色: " + colorName;
          if pantoneCode.Some? && pantoneCode.value != "" {
            colorText := colorText + " (潘通: " + pantoneCode.value + ")";
          }
          elements := elements + [Rect(canvasWidth - 200.0, specY, 30.0, 20.0, Color(hexValue), Color("#333333"), 1.0, false)];
          elements := elements + [Text(Plain(colorText), Point(canvasWidth - 160.0, specY + 5.0), 12, false, false, Color("#333333"), 0)];
        case Pattern(_, patternName, repeatMode, _, _, _) =>
          elements := elements + [Text(Plain("印花图案: " + patternName), Point(canvasWidth - 200.0, specY), 12, false, false, Color("#333333"), 0)];
          elements := elements + [Text(Plain("重复模式: " + repeatMode), Point(canvasWidth - 200.0, specY + 20.0), 10, false, false, Color("#666666"), 0)];
      }
    }

    /** `addTitle()`, centred on the current canvas width. */
    method AddTitle()
      modifies this
      ensures width == old(width) && height == old(height) && defs == old(defs)
      ensures elements == old(elements) + TitlePrimitives(design, width)
    {
      var canvasWidth := width;
      elements := elements + [Text(Plain("围裙设计稿"), Point(canvasWidth / 2.0, 15.0), 18, true, true, Color("#333333"), 0)];
      elements := elements + [Text(Summary(design.topWidth, design.bottomWidth, design.totalHeight), Point(canvasWidth / 2.0, 35.0), 12, true, false, Color("#666666"), 0)];
    }
  }
}
